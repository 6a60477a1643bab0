/**
 * The content-type `shortcut` view: look an object up by content type and
 * primary key, and redirect to its absolute URL, made absolute with the
 * domain of a Site the object is related to when the URL is relative. The ORM
 * lookups are inputs: their outcomes, the object's Site relations in field
 * order, and the current site.
 */
module ContentTypesShortcut {
  import opened Wrappers

  /** A many-to-many field: whether it points to Site, and the domains of its related sites in query order. */
  datatype ManyToManyField = ManyToManyField(toSite: bool, siteDomains: seq<string>)

  /** The value of a many-to-one field to Site: a site, a dangling key (`Site.DoesNotExist`), or a null key. */
  datatype SiteKey = SiteFound(domain: string) | SiteDoesNotExist | NullKey

  /** A concrete field: whether it is a relation to Site, and what following it gives. */
  datatype Field = Field(toSite: bool, value: SiteKey)

  /** The object: its `get_absolute_url()` (`None` when it has no such method) and its fields. */
  datatype Object = Object(absoluteUrl: Option<string>, manyToMany: seq<ManyToManyField>, fields: seq<Field>)

  /** `content_type.get_object_for_this_type(pk=object_id)`. */
  datatype ObjectLookup = ObjectFound(obj: Object) | ObjectDoesNotExist | ObjectValueError

  /** `ContentType.objects.get(pk=content_type_id)`, with `model_class()` and the object lookup. */
  datatype ContentTypeLookup =
    | ContentTypeFound(name: string, hasModelClass: bool, lookup: ObjectLookup)
    | ContentTypeDoesNotExist
    | ContentTypeValueError

  /** The request as the view reads it. */
  datatype Request = Request(isSecure: bool, currentSiteDomain: Option<string>)

  /**
   * The view's outcome: a redirect, an `Http404` with its message, or the
   * `AttributeError` a null key to Site raises (it is not caught).
   */
  datatype Response = Redirect(url: string) | NotFound(message: string) | AttributeError

  function NoModelMessage(contentTypeId: string): string {
    "Content type " + contentTypeId + " object has no associated model"
  }

  function NoObjectMessage(contentTypeId: string, objectId: string): string {
    "Content type " + contentTypeId + " object " + objectId + " doesn't exist"
  }

  function NoUrlMessage(name: string): string {
    name + " objects don't have get_absolute_url() methods"
  }

  predicate IsAbsolute(url: string) {
    "http://" <= url || "https://" <= url
  }

  /** The m2m field the view takes its domain from: a Site relation with at least one site. */
  predicate HasSite(f: ManyToManyField) {
    f.toSite && f.siteDomains != []
  }

  /** The domain of the first site of the first m2m relation to Site that has one. */
  function ManyToManyDomain(fields: seq<ManyToManyField>): Option<string> {
    if fields == [] then None
    else if HasSite(fields[0]) then Some(fields[0].siteDomains[0])
    else ManyToManyDomain(fields[1..])
  }

  /** The m2m domain is that of the first field with a site, and there is none when no field has one. */
  lemma {:induction false} ManyToManyDomainIsFirst(fields: seq<ManyToManyField>)
    ensures ManyToManyDomain(fields).None? <==> forall i :: 0 <= i < |fields| ==> !HasSite(fields[i])
    ensures forall i :: 0 <= i < |fields| && HasSite(fields[i]) && (forall j :: 0 <= j < i ==> !HasSite(fields[j])) ==>
              ManyToManyDomain(fields) == Some(fields[i].siteDomains[0])
    decreases |fields|
  {
    if fields != [] {
      ManyToManyDomainIsFirst(fields[1..]);
      forall i | 0 <= i < |fields| && HasSite(fields[i]) && (forall j :: 0 <= j < i ==> !HasSite(fields[j]))
        ensures ManyToManyDomain(fields) == Some(fields[i].siteDomains[0])
      {
        if i > 0 {
          assert !HasSite(fields[0]);
          assert fields[1..][i - 1] == fields[i];
          assert forall j :: 0 <= j < i - 1 ==> fields[1..][j] == fields[j + 1];
        }
      }
      if ManyToManyDomain(fields).None? {
        assert !HasSite(fields[0]);
        assert forall i :: 1 <= i < |fields| ==> fields[i] == fields[1..][i - 1];
      }
    }
  }

  /**
   * The scan of the many-to-one fields: the domain of the first Site
   * relation that resolves, skipping dangling keys; a null key reached
   * before that raises.
   */
  function ForeignKeyDomain(fields: seq<Field>): Result<Option<string>, Response> {
    if fields == [] then Ok(None)
    else if !fields[0].toSite then ForeignKeyDomain(fields[1..])
    else match fields[0].value
      case SiteFound(d) => Ok(Some(d))
      case SiteDoesNotExist => ForeignKeyDomain(fields[1..])
      case NullKey => Err(AttributeError)
  }

  predicate Resolves(f: Field) {
    f.toSite && f.value.SiteFound?
  }

  /** The scan raises exactly when a null Site key comes before every Site relation that resolves. */
  lemma {:induction false} ForeignKeyDomainRaises(fields: seq<Field>)
    ensures ForeignKeyDomain(fields).Err? <==>
      exists i :: 0 <= i < |fields| && fields[i].toSite && fields[i].value.NullKey?
                  && forall j :: 0 <= j < i ==> !Resolves(fields[j])
    ensures ForeignKeyDomain(fields).Err? ==> ForeignKeyDomain(fields) == Err(AttributeError)
    decreases |fields|
  {
    if fields != [] {
      var rest := fields[1..];
      if !(fields[0].toSite && fields[0].value.NullKey?) && !Resolves(fields[0]) {
        ForeignKeyDomainRaises(rest);
        assert forall i :: 1 <= i < |fields| ==> fields[i] == rest[i - 1];
        if exists i :: 0 <= i < |fields| && fields[i].toSite && fields[i].value.NullKey?
                       && forall j :: 0 <= j < i ==> !Resolves(fields[j]) {
          var i :| 0 <= i < |fields| && fields[i].toSite && fields[i].value.NullKey?
                   && forall j :: 0 <= j < i ==> !Resolves(fields[j]);
          assert 0 <= i - 1 < |rest| && rest[i - 1].toSite && rest[i - 1].value.NullKey?
                 && forall j :: 0 <= j < i - 1 ==> !Resolves(rest[j]);
        }
      }
    }
  }

  /** The domain of the object's own Site relations, m2m first; `Err` for the uncaught error. */
  function ObjectDomain(obj: Object, siteInstalled: bool): Result<Option<string>, Response> {
    if !siteInstalled then Ok(None)
    else match ManyToManyDomain(obj.manyToMany)
      case Some(d) => Ok(Some(d))
      case None => ForeignKeyDomain(obj.fields)
  }

  /** The redirect target for a relative URL, given the domain found (if any). */
  function Target(absurl: string, domain: Option<string>, request: Request): string {
    match domain
    case None => absurl
    case Some(d) => (if request.isSecure then "https" else "http") + "://" + d + absurl
  }

  /** The view's response, stated by cases in the order the source decides them. */
  function ShortcutResponse(contentTypeId: string, objectId: string, ct: ContentTypeLookup,
                            siteInstalled: bool, request: Request): (r: Response)
    ensures !ct.ContentTypeFound? ==> r == NotFound(NoObjectMessage(contentTypeId, objectId))
    ensures ct.ContentTypeFound? && !ct.hasModelClass ==> r == NotFound(NoModelMessage(contentTypeId))
    ensures ct.ContentTypeFound? && ct.hasModelClass && !ct.lookup.ObjectFound? ==>
              r == NotFound(NoObjectMessage(contentTypeId, objectId))
    ensures ct.ContentTypeFound? && ct.hasModelClass && ct.lookup.ObjectFound? && ct.lookup.obj.absoluteUrl.None? ==>
              r == NotFound(NoUrlMessage(ct.name))
    ensures (ct.ContentTypeFound? && ct.hasModelClass && ct.lookup.ObjectFound? && ct.lookup.obj.absoluteUrl.Some?
             && IsAbsolute(ct.lookup.obj.absoluteUrl.value)) ==> r == Redirect(ct.lookup.obj.absoluteUrl.value)
    ensures r == AttributeError ==> siteInstalled && ct.ContentTypeFound? && ct.lookup.ObjectFound?
  {
    match ct
    case ContentTypeDoesNotExist => NotFound(NoObjectMessage(contentTypeId, objectId))
    case ContentTypeValueError => NotFound(NoObjectMessage(contentTypeId, objectId))
    case ContentTypeFound(name, hasModelClass, lookup) =>
      if !hasModelClass then NotFound(NoModelMessage(contentTypeId))
      else match lookup
        case ObjectDoesNotExist => NotFound(NoObjectMessage(contentTypeId, objectId))
        case ObjectValueError => NotFound(NoObjectMessage(contentTypeId, objectId))
        case ObjectFound(obj) =>
          match obj.absoluteUrl
          case None => NotFound(NoUrlMessage(name))
          case Some(absurl) =>
            if IsAbsolute(absurl) then Redirect(absurl)
            else match ObjectDomain(obj, siteInstalled)
              case Err(e) => e
              case Ok(Some(d)) => Redirect(Target(absurl, Some(d), request))
              case Ok(None) => Redirect(Target(absurl, request.currentSiteDomain, request))
  }

  /**
   * Where a relative URL is redirected: to the object's m2m Site if it has
   * one, else to its first resolving Site key (unless a null key comes
   * first), else to the current site, and to the bare URL when there is no
   * site at all; the scheme is `https` exactly for a secure request.
   */
  lemma ShortcutDomainOrder(contentTypeId: string, objectId: string, name: string, obj: Object,
                            siteInstalled: bool, request: Request)
    requires obj.absoluteUrl.Some? && !IsAbsolute(obj.absoluteUrl.value)
    ensures var r := ShortcutResponse(contentTypeId, objectId, ContentTypeFound(name, true, ObjectFound(obj)),
                                      siteInstalled, request);
            var url := obj.absoluteUrl.value;
            var scheme := if request.isSecure then "https" else "http";
            && (siteInstalled && ManyToManyDomain(obj.manyToMany).Some? ==>
                  r == Redirect(scheme + "://" + ManyToManyDomain(obj.manyToMany).value + url))
            && (siteInstalled && ManyToManyDomain(obj.manyToMany).None? && ForeignKeyDomain(obj.fields).Err? ==>
                  r == AttributeError)
            && (siteInstalled && ManyToManyDomain(obj.manyToMany).None? && ForeignKeyDomain(obj.fields).Ok?
                && ForeignKeyDomain(obj.fields).value.Some? ==>
                  r == Redirect(scheme + "://" + ForeignKeyDomain(obj.fields).value.value + url))
            && ((!siteInstalled || (ManyToManyDomain(obj.manyToMany).None? && ForeignKeyDomain(obj.fields) == Ok(None))) ==>
                  r == Redirect(match request.currentSiteDomain
                                case Some(d) => scheme + "://" + d + url
                                case None => url))
  {
    if siteInstalled && ManyToManyDomain(obj.manyToMany).None? {
      ForeignKeyDomainRaises(obj.fields);
    }
  }

  /**
   * The view itself, scanning the object's fields with the source's loops
   * and early exits; it returns exactly `ShortcutResponse`.
   */
  method Shortcut(request: Request, contentTypeId: string, objectId: string,
                  ct: ContentTypeLookup, siteInstalled: bool) returns (r: Response)
    ensures r == ShortcutResponse(contentTypeId, objectId, ct, siteInstalled, request)
  {
    if !ct.ContentTypeFound? {
      return NotFound(NoObjectMessage(contentTypeId, objectId));
    }
    if !ct.hasModelClass {
      return NotFound(NoModelMessage(contentTypeId));
    }
    if !ct.lookup.ObjectFound? {
      return NotFound(NoObjectMessage(contentTypeId, objectId));
    }
    var obj := ct.lookup.obj;
    if obj.absoluteUrl.None? {
      return NotFound(NoUrlMessage(ct.name));
    }
    var absurl := obj.absoluteUrl.value;
    if IsAbsolute(absurl) {
      return Redirect(absurl);
    }
    var objectDomain: Option<string> := None;
    if siteInstalled {
      var i := 0;
      while i < |obj.manyToMany|
        invariant 0 <= i <= |obj.manyToMany|
        invariant objectDomain.None?
        invariant ManyToManyDomain(obj.manyToMany) == ManyToManyDomain(obj.manyToMany[i..])
      {
        var field := obj.manyToMany[i];
        assert obj.manyToMany[i..][1..] == obj.manyToMany[i + 1..];
        if field.toSite {
          if field.siteDomains != [] {
            objectDomain := Some(field.siteDomains[0]);
          }
          if objectDomain.Some? {
            break;
          }
        }
        i := i + 1;
      }
      assert objectDomain == ManyToManyDomain(obj.manyToMany);
      if objectDomain.None? {
        var k := 0;
        while k < |obj.fields|
          invariant 0 <= k <= |obj.fields|
          invariant objectDomain.None?
          invariant ForeignKeyDomain(obj.fields) == ForeignKeyDomain(obj.fields[k..])
        {
          var field := obj.fields[k];
          assert obj.fields[k..][1..] == obj.fields[k + 1..];
          if field.toSite {
            match field.value
            case NullKey =>
              return AttributeError;
            case SiteDoesNotExist =>
            case SiteFound(d) =>
              objectDomain := Some(d);
            if objectDomain.Some? {
              break;
            }
          }
          k := k + 1;
        }
        assert Ok(objectDomain) == ForeignKeyDomain(obj.fields);
      }
    }
    assert Ok(objectDomain) == ObjectDomain(obj, siteInstalled);
    if objectDomain.None? {
      objectDomain := request.currentSiteDomain;
    }
    r := Redirect(Target(absurl, objectDomain, request));
  }
}
