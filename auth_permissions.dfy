/**
 * The permission bootstrap run after `syncdb` (`create_permissions`): every
 * model of an app gets the default add/change/delete permissions plus its
 * own custom ones, and only the `(content type, codename)` pairs missing from
 * the database are created. The ORM is abstract: the content type of a model
 * is a function, the existing rows are a sequence, and the created rows are
 * the method's result.
 */
module AuthPermissions {
  import opened Text

  /** What the bootstrap reads of a model's `_meta`. */
  datatype ModelOptions = ModelOptions(objectName: string, verboseNameRaw: string,
                                       permissions: seq<Permission>)

  /** A `(codename, name)` pair. */
  datatype Permission = Permission(codename: string, name: string)

  /** A permission for a content type, identified by the content type's primary key. */
  datatype TypedPermission = TypedPermission(ctype: nat, perm: Permission)

  /** A row of the permission table as the bootstrap reads it: `(content_type, codename)`. */
  datatype ExistingRow = ExistingRow(ctype: nat, codename: string)

  const DefaultActions: seq<string> := ["add", "change", "delete"]

  /** `_get_permission_codename(action, opts)`. */
  function PermissionCodename(action: string, opts: ModelOptions): (c: string)
    ensures |c| == |action| + 1 + |opts.objectName|
    ensures c[..|action|] == action && c[|action|] == '_'
    ensures c[|action| + 1..] == Lower(opts.objectName)
  {
    action + "_" + Lower(opts.objectName)
  }

  /**
   * Default codenames identify their action and model: two of them are equal
   * only for the same action on models whose names agree up to case.
   */
  lemma DefaultCodenamesInjective(a1: string, a2: string, o1: ModelOptions, o2: ModelOptions)
    requires a1 in DefaultActions && a2 in DefaultActions
    requires PermissionCodename(a1, o1) == PermissionCodename(a2, o2)
    ensures a1 == a2 && Lower(o1.objectName) == Lower(o2.objectName)
  {
    var c := PermissionCodename(a1, o1);
    assert c[0] == a1[0] && c[0] == a2[0];
    assert a1 == a2;
  }

  /** `(codename, 'Can <action> <verbose_name_raw>')` for a default action. */
  function DefaultPermission(action: string, opts: ModelOptions): Permission {
    Permission(PermissionCodename(action, opts), "Can " + action + " " + opts.verboseNameRaw)
  }

  /** `_get_all_permissions(opts)`: the three defaults, in order, then the custom permissions. */
  function AllPermissions(opts: ModelOptions): (ps: seq<Permission>)
    ensures |ps| == 3 + |opts.permissions|
    ensures ps[0] == Permission(PermissionCodename("add", opts), "Can add " + opts.verboseNameRaw)
    ensures ps[1] == Permission(PermissionCodename("change", opts), "Can change " + opts.verboseNameRaw)
    ensures ps[2] == Permission(PermissionCodename("delete", opts), "Can delete " + opts.verboseNameRaw)
    ensures ps[3..] == opts.permissions
  {
    var defaults := [DefaultPermission("add", opts), DefaultPermission("change", opts), DefaultPermission("delete", opts)];
    assert (defaults + opts.permissions)[|defaults|..] == opts.permissions;
    defaults + opts.permissions
  }

  /** The permissions of one model, tagged with its content type. */
  function Tagged(ctype: nat, ps: seq<Permission>): (ts: seq<TypedPermission>)
    ensures |ts| == |ps|
    ensures forall i :: 0 <= i < |ps| ==> ts[i] == TypedPermission(ctype, ps[i])
  {
    if ps == [] then [] else Tagged(ctype, ps[..|ps| - 1]) + [TypedPermission(ctype, ps[|ps| - 1])]
  }

  /** `searched_perms`: every model's permissions, models in order. */
  function Searched(models: seq<ModelOptions>, ctypeOf: ModelOptions -> nat): seq<TypedPermission> {
    if models == [] then []
    else
      var last := models[|models| - 1];
      Searched(models[..|models| - 1], ctypeOf) + Tagged(ctypeOf(last), AllPermissions(last))
  }

  function PermissionCount(models: seq<ModelOptions>): nat {
    if models == [] then 0
    else PermissionCount(models[..|models| - 1]) + 3 + |models[|models| - 1].permissions|
  }

  /** Every model contributes its three defaults and its custom permissions. */
  lemma {:induction false} SearchedLength(models: seq<ModelOptions>, ctypeOf: ModelOptions -> nat)
    ensures |Searched(models, ctypeOf)| == PermissionCount(models)
    decreases |models|
  {
    if models != [] {
      SearchedLength(models[..|models| - 1], ctypeOf);
    }
  }

  /** `ctypes`: the content types of the app's models. */
  function ContentTypes(models: seq<ModelOptions>, ctypeOf: ModelOptions -> nat): set<nat> {
    set m | m in models :: ctypeOf(m)
  }

  /** The bootstrap reads at most this many existing rows (`[:1000000]`). */
  const RowLimit: nat := 1000000

  function Capped(rows: seq<ExistingRow>): seq<ExistingRow> {
    if |rows| <= RowLimit then rows else rows[..RowLimit]
  }

  /** `all_perms`: the existing pairs, among the rows read, whose content type is one of the app's. */
  function Snapshot(rows: seq<ExistingRow>, ctypes: set<nat>): set<ExistingRow> {
    set r | r in Capped(rows) && r.ctype in ctypes
  }

  /** The searched permissions whose pair is not in the snapshot, in searched order. */
  function Missing(searched: seq<TypedPermission>, snapshot: set<ExistingRow>): seq<TypedPermission> {
    if searched == [] then []
    else
      var last := searched[|searched| - 1];
      Missing(searched[..|searched| - 1], snapshot)
      + (if ExistingRow(last.ctype, last.perm.codename) in snapshot then [] else [last])
  }

  /** The rows `create_permissions` creates. */
  function ToCreate(models: seq<ModelOptions>, ctypeOf: ModelOptions -> nat, rows: seq<ExistingRow>): seq<TypedPermission> {
    Missing(Searched(models, ctypeOf), Snapshot(rows, ContentTypes(models, ctypeOf)))
  }

  lemma TaggedSnoc(ctype: nat, ps: seq<Permission>, p: Permission)
    ensures Tagged(ctype, ps + [p]) == Tagged(ctype, ps) + [TypedPermission(ctype, p)]
  {
    assert (ps + [p])[..|ps|] == ps;
  }

  lemma SearchedSnoc(models: seq<ModelOptions>, m: ModelOptions, ctypeOf: ModelOptions -> nat)
    ensures Searched(models + [m], ctypeOf) == Searched(models, ctypeOf) + Tagged(ctypeOf(m), AllPermissions(m))
    ensures ContentTypes(models + [m], ctypeOf) == ContentTypes(models, ctypeOf) + {ctypeOf(m)}
  {
    assert (models + [m])[..|models|] == models;
  }

  /** The inner loop over one model's permissions. */
  method AppendTagged(searched: seq<TypedPermission>, ctype: nat, perms: seq<Permission>)
    returns (r: seq<TypedPermission>)
    ensures r == searched + Tagged(ctype, perms)
  {
    r := searched;
    for j := 0 to |perms|
      invariant r == searched + Tagged(ctype, perms[..j])
    {
      assert perms[..j + 1] == perms[..j] + [perms[j]];
      TaggedSnoc(ctype, perms[..j], perms[j]);
      r := r + [TypedPermission(ctype, perms[j])];
    }
    assert perms[..|perms|] == perms;
  }

  /** The first loop of `create_permissions`: `searched_perms` and `ctypes`. */
  method CollectSearched(models: seq<ModelOptions>, ctypeOf: ModelOptions -> nat)
    returns (searched: seq<TypedPermission>, ctypes: set<nat>)
    ensures searched == Searched(models, ctypeOf)
    ensures ctypes == ContentTypes(models, ctypeOf)
  {
    searched, ctypes := [], {};
    for i := 0 to |models|
      invariant searched == Searched(models[..i], ctypeOf)
      invariant ctypes == ContentTypes(models[..i], ctypeOf)
    {
      var klass := models[i];
      var ctype := ctypeOf(klass);
      ctypes := ctypes + {ctype};
      searched := AppendTagged(searched, ctype, AllPermissions(klass));
      assert models[..i + 1] == models[..i] + [klass];
      SearchedSnoc(models[..i], klass, ctypeOf);
    }
    assert models[..|models|] == models;
  }

  /** The second loop: the existing pairs, among the rows read, of the app's content types. */
  method TakeSnapshot(rows: seq<ExistingRow>, ctypes: set<nat>) returns (allPerms: set<ExistingRow>)
    ensures allPerms == Snapshot(rows, ctypes)
  {
    allPerms := {};
    var read := Capped(rows);
    for k := 0 to |read|
      invariant allPerms == set r | r in read[..k] && r.ctype in ctypes
    {
      if read[k].ctype in ctypes {
        allPerms := allPerms + {read[k]};
      }
      assert read[..k + 1] == read[..k] + [read[k]];
    }
    assert read[..|read|] == read;
  }

  /** The third loop: create each searched permission whose pair is not in the snapshot. */
  method CreateMissing(searched: seq<TypedPermission>, allPerms: set<ExistingRow>)
    returns (created: seq<TypedPermission>)
    ensures created == Missing(searched, allPerms)
  {
    created := [];
    for k := 0 to |searched|
      invariant created == Missing(searched[..k], allPerms)
    {
      var sp := searched[k];
      assert searched[..k + 1][..k] == searched[..k];
      if ExistingRow(sp.ctype, sp.perm.codename) !in allPerms {
        created := created + [sp];
      }
    }
    assert searched[..|searched|] == searched;
  }

  /**
   * `create_permissions(app, ...)`: collect the searched permissions and the
   * app's content types, take the snapshot of existing pairs once, then
   * create each searched permission whose pair is not in the snapshot.
   */
  method CreatePermissions(models: seq<ModelOptions>, ctypeOf: ModelOptions -> nat, rows: seq<ExistingRow>)
    returns (created: seq<TypedPermission>)
    ensures created == ToCreate(models, ctypeOf, rows)
  {
    var searched, ctypes := CollectSearched(models, ctypeOf);
    var allPerms := TakeSnapshot(rows, ctypes);
    created := CreateMissing(searched, allPerms);
  }

  /** A searched permission is created exactly when its pair is not in the snapshot. */
  lemma {:induction false} MissingExactly(searched: seq<TypedPermission>, snapshot: set<ExistingRow>, p: TypedPermission)
    ensures p in Missing(searched, snapshot) <==>
              p in searched && ExistingRow(p.ctype, p.perm.codename) !in snapshot
    decreases |searched|
  {
    if searched != [] {
      var init := searched[..|searched| - 1];
      MissingExactly(init, snapshot, p);
      assert searched == init + [searched[|searched| - 1]];
    }
  }

  /**
   * A row of a content type that is not one of the app's models never
   * prevents a creation.
   */
  lemma ForeignRowsIgnored(models: seq<ModelOptions>, ctypeOf: ModelOptions -> nat,
                           rows: seq<ExistingRow>, row: ExistingRow)
    requires row.ctype !in ContentTypes(models, ctypeOf)
    ensures ToCreate(models, ctypeOf, rows + [row]) == ToCreate(models, ctypeOf, rows)
  {
    var ctypes := ContentTypes(models, ctypeOf);
    if |rows| >= RowLimit {
      RowsPastCapIgnored(rows, [row], ctypes);
    } else {
      assert Capped(rows + [row]) == rows + [row];
    }
    assert Snapshot(rows + [row], ctypes) == Snapshot(rows, ctypes);
  }

  /**
   * Only the first 1,000,000 existing rows are read: once that many rows come
   * first, even of other apps' content types, later rows are not seen, and a
   * permission among them is created again.
   */
  lemma RowsPastCapIgnored(rows: seq<ExistingRow>, later: seq<ExistingRow>, ctypes: set<nat>)
    requires |rows| >= RowLimit
    ensures Snapshot(rows + later, ctypes) == Snapshot(rows, ctypes)
  {
    assert (rows + later)[..RowLimit] == rows[..RowLimit];
  }

  /**
   * The snapshot is not updated while creating: a pair the searched list
   * holds twice, and that is missing, is created twice.
   */
  lemma SnapshotNotUpdated(searched: seq<TypedPermission>, snapshot: set<ExistingRow>, p: TypedPermission)
    requires ExistingRow(p.ctype, p.perm.codename) !in snapshot
    ensures Missing(searched + [p, p], snapshot) == Missing(searched, snapshot) + [p, p]
  {
    assert (searched + [p, p])[..|searched| + 1] == searched + [p];
    assert (searched + [p])[..|searched|] == searched;
  }
}
