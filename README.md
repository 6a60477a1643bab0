# Django decision and string-building routines, modelled in Dafny

This project models a dozen small routines of Django and proves what they
promise. Each routine decides something or builds a string or a list. One Dafny
module covers each source file:

- `AdminLog` covers the `{% get_admin_log %}` template tag. It models the
  argument checks of `DoGetAdminLog.__call__` and the filter choice and context
  write of `AdminLogNode.render`. The context is a class whose variable map the
  render method updates.
- `MySQLSpatial` covers the MySQL spatial backend: the `geometry_functions`
  and `gis_terms` tables, `geo_db_type`, `get_geom_placeholder` and
  `spatial_lookup_sql`.
- `OracleCompiler` covers Oracle's `SQLCompiler`. `as_sql` wraps a sliced query
  in the ROWNUM emulation of LIMIT/OFFSET. `resolve_columns` strips the `"_RN"`
  column and pairs the remaining values with fields.
- `PostgresCreation` covers PostgreSQL `DatabaseCreation`: the `data_types`
  table, `sql_table_creation_suffix` and `sql_indexes_for_field`. The last one
  includes the second `_like` index with a pattern operator class.
- `MySQLClient` covers the argument list that `DatabaseClient.runshell`
  builds. It is an imperative method with one step per option, proved equal to
  a declarative command line. A reader is proved to recover every setting from
  that command line.
- `GeosErrCheck` covers the GEOS prototype error checks `check_dbl`,
  `check_geom`, `check_minus_one`, `check_predicate`, `check_zero`, and the
  null-pointer guards of `check_string` and `check_sized_string`.
- `GeoFeeds` covers `GeoFeedMixin` (GeoRSS Simple and W3C Basic Geo output).
  `georss_coords` is a function. `add_georss_point` and `add_georss_element`
  append elements to a `Handler` object's element list.
- `AuthPermissions` covers the permission bootstrap: the default codenames,
  `_get_all_permissions`, and the three loops of `create_permissions`. Those
  loops are proved to create exactly the missing `(content type, codename)`
  pairs.
- `ContentTypesShortcut` covers the `shortcut` redirect view. It has the
  source's loops over many-to-many and many-to-one Site relations with their
  early exits, and it is proved equal to a declarative response function.
- `SitemapViews` and `GisSitemapViews` cover the `index` and `sitemap` views
  of the plain and the geographic sitemaps, and the geographic `kmz` view.
- `Text` and `Wrappers` are shared helpers. `Text` holds `str.split()` with
  Python's whitespace set, `' '.join`, `'%d'`, and the ASCII parts of
  `str.isdigit()` and `str.lower()`. `Wrappers` holds `Option` and `Result`.

The framework's hooks are parameters of the model, with nothing assumed about
what they compute, with one exception: `GeoFeeds.GeorssCoordsSplit` assumes
that `%f` renders every number as a non-empty word without whitespace
(`WordFormat`). These are `quote_name`/`qn`, the `style.SQL_*` colourers,
`truncate_name`, `tablespace_sql`, `convert_values`, the parent SQL compiler,
`urlresolvers.reverse`, a sitemap's `get_urls`, `%f` number formatting and
`ctypes.string_at`. ORM lookups are also inputs: their outcomes, the content
type of a model, and the existing permission rows. Python exceptions are `Err`
values. The exceptions these routines raise themselves are modelled, and so are
the ones they hit on `None` or on a missing index or key. Exceptions raised
inside the hooks are not modelled, and neither is the one `gis_terms` raises
under Python 3 (see "## Left out").

The sources mix Python dialects. They need Python 3.8 or later for `:=` and
f-strings. They also keep Python 2 idioms: `map(None, ...)` in the Oracle
compiler, `dict.keys() + list` in the MySQL spatial backend, and a `print`
statement in the permission bootstrap. The model follows Python 3 wherever
the two differ, with two exceptions:

- `OracleCompiler.ResolveColumns` is the pairing the code was written for; the
  Python 3 reading is a finding below.
- `MySQLSpatial.GisTerms` keeps the Python 2 meaning.

## Model

| member | source | states |
|---|---|---|
| Text.Split | django/contrib/admin/templatetags/log.py:45 | every word `str.split()` yields is non-empty and free of whitespace |
| Text.SplitJoinSpace | django/contrib/admin/templatetags/log.py:45 | splitting words joined by single spaces gives back the same words |
| Text.NatToStringInjective | django/contrib/sitemaps/views.py:22 | different page numbers are rendered as different strings |
| AdminLog.ParseTokens | django/contrib/admin/templatetags/log.py:45-62 | the four syntax errors come in the source's order, each with its message; success iff ≥4 tokens, digit limit, `as`, and `for_user` when a fifth token exists; limit = tokens[1], varname = tokens[3], user = tokens[5] only when more than 5 tokens |
| AdminLog.DoGetAdminLog | django/contrib/admin/templatetags/log.py:44-62 | the tag is parsed from the whitespace-split contents; with six or more words the user is the sixth |
| AdminLog.ParseTagContents | django/contrib/admin/templatetags/log.py:44-62 | a node written back as tag text parses to the same node (limit, varname and optional user) |
| AdminLog.RenderQuery | django/contrib/admin/templatetags/log.py:13-20 | no user: the unfiltered log; an all-digit user: that literal id; otherwise the `id` of the context object of that name; a missing name is a KeyError and a non-object an AttributeError |
| AdminLog.Context.Render | django/contrib/admin/templatetags/log.py:13-21 | on success returns `''` and changes only `context[varname]`, setting it to the query; on error the context is unchanged |
| MySQLSpatial.GeometryFunction | django/contrib/gis/db/backends/mysql/operations.py:18-31 | defined exactly on the table's keys; every value starts with `MBR` and holds no `(`; the aliases contains/bbcontains, equals/exact/same_as, within/contained and overlaps/bboverlaps share a function |
| MySQLSpatial.GisTerms | django/contrib/gis/db/backends/mysql/operations.py:33 | its keys are the geometry function keys plus `isnull`, all mapped to None |
| MySQLSpatial.GeoDbType | django/contrib/gis/db/backends/mysql/operations.py:35-36 | the column type is the field's geometry type, unchanged |
| MySQLSpatial.GetGeomPlaceholder | django/contrib/gis/db/backends/mysql/operations.py:38-48 | a column expression gives the quoted `alias.col`; any other value gives `GeomFromText(%s)`; the SRID plays no part |
| MySQLSpatial.SpatialLookupSql | django/contrib/gis/db/backends/mysql/operations.py:50-63 | a mapped lookup gives `FUNC(qn(alias).qn(col), placeholder)`; `isnull` gives `IS NOT NULL` for a falsy value and `IS NULL` for a truthy one; the result is a TypeError naming the lookup iff the lookup is not in `gis_terms` |
| MySQLSpatial.CallHeadInjective | django/contrib/gis/db/backends/mysql/operations.py:55-56 | two SQL calls with the same arguments are equal only when they call the same function |
| MySQLSpatial.LookupsAgreeIffSameFunction | django/contrib/gis/db/backends/mysql/operations.py:18-31 | two mapped lookups produce the same SQL exactly when the table maps them to the same function |
| OracleCompiler.AsSql | django/db/backends/oracle/compiler.py:19-48 | with limits and equal marks: empty SQL and no params; a sliced query: the inner SQL (built with column aliases) inside the ROWNUM wrapper with its params; otherwise exactly the inner compiler's result for the given `with_col_aliases` |
| OracleCompiler.WrapEmbedsInner | django/db/backends/oracle/compiler.py:38-43 | the wrapper is, position by position, the fixed ROWNUM head, the inner query verbatim, `) "_SUB" ` with the high-mark clause, and `) WHERE "_RN" > low`, nothing else |
| OracleCompiler.ConvertWithoutField | django/db/backends/oracle/compiler.py:11-12 | the `extra_select` columns, slice-clamped, each converted without a field |
| OracleCompiler.HighWhere | django/db/backends/oracle/compiler.py:38-42 | the clause is empty exactly when there is no high mark, and otherwise `WHERE ROWNUM <= <high mark>` |
| OracleCompiler.Wrap | django/db/backends/oracle/compiler.py:43 | — |
| OracleCompiler.ConvertWithFields | django/db/backends/oracle/compiler.py:13-16 | corrected pairing (see Findings): the remaining columns paired with `fields` by position; the shorter side is padded with None up to the longer length |
| OracleCompiler.ResolveColumns | django/db/backends/oracle/compiler.py:5-17 | corrected `resolve_columns` (see Findings): one leading column is skipped iff the query is sliced; the length and every position of the result are given by the two parts above |
| OracleCompiler.ResolveColumnsAsWritten | django/db/backends/oracle/compiler.py:5-17 | `resolve_columns` under Python 3: TypeError iff a column remains after the `extra_select` ones and `fields` is non-empty; otherwise exactly the converted `extra_select` columns, the rest dropped |
| OracleCompiler.AsWrittenAgreesOnlyWithoutFieldColumns | django/db/backends/oracle/compiler.py:13-16 | the code as written equals the corrected result iff no column remains after the `extra_select` ones and no field is given |
| OracleCompiler.AsWrittenDropsColumn | django/db/backends/oracle/compiler.py:13-16 | `resolve_columns([v])` on an unsliced query returns `()`, where the corrected version returns the one converted column |
| OracleCompiler.ResolveDropsRowNumber | django/db/backends/oracle/compiler.py:9-12 | resolving a sliced row with its `"_RN"` column equals resolving the bare row for the unsliced query |
| PostgresCreation.DataType | django/db/backends/postgresql/creation.py:9-31 | a column type exists exactly for the listed field classes (an unlisted class is a KeyError), and it is never empty |
| PostgresCreation.Interpolate | django/db/backends/postgresql/creation.py:9-31 | `column type % field.__dict__` succeeds iff every placeholder names a present attribute; a type without placeholders is returned as written |
| PostgresCreation.DataTypeAttributes | django/db/backends/postgresql/creation.py:9-31 | the table's placeholders are only `max_length`, `max_digits`, `decimal_places` and `column`, so a field with those attributes always gets a column type |
| PostgresCreation.CharFieldColumn | django/db/backends/postgresql/creation.py:12 | a `CharField` column is `varchar(<max_length>)`; its entry reads `varchar(%(max_length)s)` |
| PostgresCreation.SqlTableCreationSuffix | django/db/backends/postgresql/creation.py:33-37 | an assertion failure with its message iff TEST_COLLATION is set; otherwise `WITH ENCODING '<charset>'` for a non-empty TEST_CHARSET and `''` for none |
| PostgresCreation.TablespaceSuffix | django/db/backends/postgresql/creation.py:43-48 | the field's tablespace overrides the model's; the suffix is ` <sql>` only when the tablespace SQL is non-empty, else empty |
| PostgresCreation.IndexSqlEnds | django/db/backends/postgresql/creation.py:50-67 | every index statement ends with the tablespace suffix and `;` |
| PostgresCreation.IndexSql | django/db/backends/postgresql/creation.py:50-67 | — |
| PostgresCreation.SqlIndexesForField | django/db/backends/postgresql/creation.py:39-90 | nothing for an unindexed or unique field; AttributeError iff the field is indexed, not unique, and `db_type()` is None; otherwise first the `<table>_<column>` index with no operator class; a second `_like` index exists iff the column type starts with `varchar` (varchar_pattern_ops) or `text` (text_pattern_ops); never more than two |
| PostgresCreation.IndexesEndWithTablespace | django/db/backends/postgresql/creation.py:39-90 | every returned statement ends with the tablespace suffix and `;` |
| MySQLClient.ShellArgs | django/db/backends/mysql/client.py:11-28 | — |
| MySQLClient.FromOptions | django/db/backends/mysql/client.py:12-17 | an `OPTIONS` entry overrides the top-level setting; otherwise the setting is used |
| MySQLClient.RunshellArgs | django/db/backends/mysql/client.py:9-28 | the list built by the `+=` steps is the declarative command line and starts with `mysql` |
| MySQLClient.ShellArgsLength | django/db/backends/mysql/client.py:17-28 | the command line has one argument plus one per truthy value |
| MySQLClient.OptionArgsReadBack | django/db/backends/mysql/client.py:17-28 | reading the flags back left to right recovers defaults file, user, password, host or socket, port and database |
| MySQLClient.ShellArgsReadBack | django/db/backends/mysql/client.py:11-28 | the arguments after `mysql` determine every effective setting (fixed flag order, `/` selects `--socket=`), unless the database name starts with `-` |
| GeosErrCheck.CheckDbl | django/contrib/gis/geos/prototypes/errcheck.py:29-32 | a value iff the status is 1, and then it is the by-reference argument's value |
| GeosErrCheck.CheckGeom | django/contrib/gis/geos/prototypes/errcheck.py:34-40 | raises with its message iff the pointer is null; otherwise returns it unchanged |
| GeosErrCheck.CheckMinusOne | django/contrib/gis/geos/prototypes/errcheck.py:42-47 | raises iff the result is -1; otherwise returns it unchanged |
| GeosErrCheck.CheckPredicate | django/contrib/gis/geos/prototypes/errcheck.py:49-59 | ordinal 0 gives False and 1 gives True; any other ordinal raises with its message |
| GeosErrCheck.CheckSizedString | django/contrib/gis/geos/prototypes/errcheck.py:61-77 | raises iff the pointer is null, before reading; otherwise returns the bytes read with the by-reference size |
| GeosErrCheck.CheckString | django/contrib/gis/geos/prototypes/errcheck.py:79-93 | raises iff the pointer is null, before reading; otherwise returns the string at the pointer |
| GeosErrCheck.CheckZero | django/contrib/gis/geos/prototypes/errcheck.py:95-100 | raises iff the result is 0; otherwise returns it unchanged |
| GeoFeeds.Handler.AddQuickElement | django/contrib/gis/feeds.py:26-27 | `addQuickElement` appends one element and leaves the earlier ones unchanged |
| GeoFeeds.GeorssCoords | django/contrib/gis/feeds.py:10-16 | — |
| GeoFeeds.LatLonStrings | django/contrib/gis/feeds.py:16 | one string per coordinate pair, in input order, each `lat lon` |
| GeoFeeds.GeorssCoordsWords | django/contrib/gis/feeds.py:10-16 | the text is the numbers y0 x0 y1 x1 … joined by single spaces |
| GeoFeeds.GeorssCoordsSplit | django/contrib/gis/feeds.py:10-16 | splitting the text on whitespace gives back exactly the 2n numbers, latitude before longitude, in order |
| GeoFeeds.PointElements | django/contrib/gis/feeds.py:18-29 | W3C: exactly `geo:lat` then `geo:lon`; otherwise exactly one `georss:point` with `lat lon` |
| GeoFeeds.BoxElements | django/contrib/gis/feeds.py:57-59 | a box in a W3C feed is a ValueError; otherwise one `georss:box` of the two corners |
| GeoFeeds.GeoElements | django/contrib/gis/feeds.py:31-75 | no geometry: nothing; a flat pair, or a Point object's coordinate, gives the point's elements; a flat 4-tuple gives the box of its two halves and a nested pair the box of its two tuples; a flat tuple of length other than 2 or 4, or a nested one of length other than 2, is a ValueError with its message; empty tuples are IndexErrors; a Point without coordinates is the unpacking ValueError in a W3C feed and an IndexError otherwise; a polygon without rings outside W3C is an IndexError; boxes and non-points in W3C feeds are ValueErrors; a line or ring gives `georss:line`; a polygon gives `georss:polygon` of the exterior ring; any other type is the "not supported" ValueError naming it; at most two elements, two only for a W3C point |
| GeoFeeds.TupleSpellingsAgree | django/contrib/gis/feeds.py:42-55 | `(x0, y0, x1, y1)` and `((x0, y0), (x1, y1))` give the same box; `(x, y)` is the point `(x, y)` |
| GeoFeeds.AddGeorssPoint | django/contrib/gis/feeds.py:18-29 | appends exactly the point's elements to the handler |
| GeoFeeds.AddBox | django/contrib/gis/feeds.py:57-59 | appends the box element or, on error, leaves the handler unchanged |
| GeoFeeds.AddGeorssElement | django/contrib/gis/feeds.py:31-75 | appends exactly the elements of the geometry or, on error, appends nothing |
| AuthPermissions.PermissionCodename | django/contrib/auth/management/__init__.py:9-10 | the codename is the action, `_`, then the lower-cased object name |
| AuthPermissions.DefaultCodenamesInjective | django/contrib/auth/management/__init__.py:9-21 | two default codenames are equal only for the same action on models whose names agree up to case |
| AuthPermissions.AllPermissions | django/contrib/auth/management/__init__.py:12-21 | add, change, delete, in that order and named `Can <action> <verbose_name_raw>`, followed by the custom permissions in order |
| AuthPermissions.Searched | django/contrib/auth/management/__init__.py:33-37 | — |
| AuthPermissions.Snapshot | django/contrib/auth/management/__init__.py:42-47 | — |
| AuthPermissions.Missing | django/contrib/auth/management/__init__.py:49-57 | — |
| AuthPermissions.ToCreate | django/contrib/auth/management/__init__.py:23-57 | — |
| AuthPermissions.Tagged | django/contrib/auth/management/__init__.py:36-37 | each permission of a model is paired with the model's content type, in order |
| AuthPermissions.SearchedLength | django/contrib/auth/management/__init__.py:33-37 | every model contributes 3 plus its custom permissions to the searched list |
| AuthPermissions.AppendTagged | django/contrib/auth/management/__init__.py:36-37 | the inner loop appends the model's tagged permissions |
| AuthPermissions.CollectSearched | django/contrib/auth/management/__init__.py:33-37 | the first loop builds the searched list and the content type set |
| AuthPermissions.TakeSnapshot | django/contrib/auth/management/__init__.py:42-47 | the second loop keeps, among the first 1,000,000 rows, the pairs whose content type is one of the app's |
| AuthPermissions.CreateMissing | django/contrib/auth/management/__init__.py:49-57 | the third loop creates the searched permissions whose pair is not in the snapshot, in order |
| AuthPermissions.CreatePermissions | django/contrib/auth/management/__init__.py:23-57 | the rows created are exactly the declarative missing list |
| AuthPermissions.MissingExactly | django/contrib/auth/management/__init__.py:49-57 | a permission is created iff it was searched and its `(content type, codename)` pair is not in the snapshot |
| AuthPermissions.ForeignRowsIgnored | django/contrib/auth/management/__init__.py:43-47 | appending an existing row of another app's content type changes nothing, wherever it falls relative to the 1,000,000-row cap; earlier foreign rows still count towards the cap, so they can push an app's row out of the snapshot |
| AuthPermissions.RowsPastCapIgnored | django/contrib/auth/management/__init__.py:45 | once 1,000,000 rows come first, later rows are never read, so a permission among them is created again |
| AuthPermissions.SnapshotNotUpdated | django/contrib/auth/management/__init__.py:42-57 | the snapshot is not updated while creating, so for a missing permission searched twice `create` is called twice (the database's unique `(content_type, codename)` would refuse the second row) |
| ContentTypesShortcut.ManyToManyDomain | django/contrib/contenttypes/views.py:42-51 | — |
| ContentTypesShortcut.ForeignKeyDomain | django/contrib/contenttypes/views.py:54-62 | — |
| ContentTypesShortcut.ObjectDomain | django/contrib/contenttypes/views.py:36-69 | — |
| ContentTypesShortcut.ManyToManyDomainIsFirst | django/contrib/contenttypes/views.py:42-51 | the m2m domain is the first Site of the first m2m Site relation that has one, and none iff no relation has one |
| ContentTypesShortcut.ForeignKeyDomainRaises | django/contrib/contenttypes/views.py:54-62 | the many-to-one scan raises AttributeError exactly when a null Site key comes before every Site key that resolves |
| ContentTypesShortcut.ShortcutResponse | django/contrib/contenttypes/views.py:6-74 | a missing content type or object, or a ValueError, gives the "doesn't exist" 404; no model class gives the "no associated model" 404; no `get_absolute_url` gives its 404; an `http://` or `https://` URL is redirected to unchanged; AttributeError only from the Site scan |
| ContentTypesShortcut.ShortcutDomainOrder | django/contrib/contenttypes/views.py:36-74 | a relative URL goes to the m2m Site first, then to the first resolving Site key, then to the current site, then bare; the scheme is https iff the request is secure |
| ContentTypesShortcut.Shortcut | django/contrib/contenttypes/views.py:6-74 | the view with its loops and early breaks returns exactly the declarative response |
| SitemapViews.SectionUrls | django/contrib/sitemaps/views.py:19-24 | max(1, pages) URLs: the base URL first, then `?p=2` … `?p=pages` in ascending order |
| SitemapViews.SectionUrlsDistinct | django/contrib/sitemaps/views.py:19-24 | no URL of a section is listed twice |
| SitemapViews.IndexUrls | django/contrib/sitemaps/views.py:12-24 | no sections: no URLs; otherwise the first URL is the first section's base URL |
| SitemapViews.IndexUrlsSnoc | django/contrib/sitemaps/views.py:12-24 | one more section appends exactly that section's URLs, so the index is the sections' URLs concatenated in the dictionary's order |
| SitemapViews.IndexUrlsLength | django/contrib/sitemaps/views.py:12-24 | the index lists max(1, pages) URLs for each section |
| SitemapViews.AppendSectionUrls | django/contrib/sitemaps/views.py:19-24 | the append and extend steps add exactly the section's URLs |
| SitemapViews.Index | django/contrib/sitemaps/views.py:8-26 | the list rendered is the declarative index with https iff the request is secure; every sitemap's request is set to the request |
| SitemapViews.Selected | django/contrib/sitemaps/views.py:30-35 | no section: every sitemap; an unknown section: none (a 404); a known section: exactly its sitemap |
| SitemapViews.SelectedSection | django/contrib/sitemaps/views.py:32-35 | with distinct keys, the i-th section selects the i-th sitemap |
| SitemapViews.SitemapOfSection | django/contrib/sitemaps/views.py:30-35 | asking for a known section answers as a dictionary holding only that section would |
| SitemapViews.Gather | django/contrib/sitemaps/views.py:38-47 | — |
| SitemapViews.GatherFailsAtFirst | django/contrib/sitemaps/views.py:38-47 | the page fails iff some selected sitemap raises; the 404 is "Page … empty" or "No page '…'" for the first one that raises |
| SitemapViews.SitemapResponse | django/contrib/sitemaps/views.py:28-49 | an unknown section is the "No sitemap available for section" 404; a URL set is rendered with the given template |
| SitemapViews.SitemapPage | django/contrib/sitemaps/views.py:28-49 | the view with its extend loop returns exactly the declarative response; the page is `p`, or 1 when absent |
| GisSitemapViews.GeoIndex | django/contrib/gis/sitemaps/views.py:13-35 | the declarative index reversed against the geographic sitemap view, with https iff secure; no sitemap is touched |
| GisSitemapViews.GeoSitemap | django/contrib/gis/sitemaps/views.py:37-63 | the plain view's selection and 404s, rendered with `gis/sitemaps/geo_sitemap.xml` |
| GisSitemapViews.Kmz | django/contrib/gis/sitemaps/views.py:108-112 | `kml` with the same label, model, field name and database, and compression on |

## Left out

- urls.py is not part of this model. It is a route table read by Django's URL dispatcher.
- The ORM is not modelled. Content types, object lookups, model metadata, existing permission rows and log queries are inputs; created rows are outputs.
- Template rendering and `HttpResponse` construction are left out. A view's result is the template name and the list it renders.
- `os.execvp` and `os.system` in the MySQL client are left out; the model ends at the argument list.
- The `string_at`/`free` memory handling and the platform `free` selection in the GEOS checks are left out. They are foreign calls; `string_at` is a parameter.
- `%f` formatting in the feeds is a parameter, so coordinates keep only their order and the lat/lon swap.
- The feed subclasses' `rss_attributes`, `root_attributes` and `add_*_elements` overrides are left out; they only call the mixin.
- `create_superuser`, the verbosity `print` and signal registration are left out. They are interactive I/O or wiring.
- The bodies of the `kml`/`kmz` views are left out: the ORM query, the backend branching and the KML/KMZ rendering. Only `kmz`'s delegation to `kml` is modelled.
- `str.isdigit()` and `str.lower()` are ASCII only: Unicode digits and case mappings beyond ASCII are not modelled. `str.split()` uses Python's full whitespace set.
- Text.Split: empty input, or input that is only whitespace, yields no words, as in Python.
- AdminLog.Context.Render: Django's stacked `Context` is flattened to one map. Writing a variable replaces its value in that map.
- SitemapViews.Index: callable sitemap classes (`site()`) are not modelled; each sitemap is an object with a page count.
- SitemapViews.Repr: `repr` of a section is modelled as single quotes around the name, without Python's escaping of quotes and control characters.
- ContentTypesShortcut.Shortcut: relations are described by whether they point to Site, not by Python's `is Site` identity test.
- GeoFeeds.GeoElements: coordinates are reals. Tuples mixing numbers and nested tuples are not modelled; the first element decides the shape, as in the source.
- MySQLClient.ShellArgs: settings are strings, with `""` for a missing or falsy value, so a numeric PORT is its string form.
- PostgresCreation.SqlTableCreationSuffix: the `assert` is modelled as an error result; under `python -O` it is skipped.
- OracleCompiler.ResolveColumns: models the padded pairing of Python 2's `map(None, ...)`, which the code was written for. Under Python 3 the same line drops or fails, as `OracleCompiler.ResolveColumnsAsWritten` states (see Findings).
- MySQLSpatial.GisTerms: gives the Python 2 meaning of `geometry_functions.keys() + ['isnull']`. Under Python 3, which the `:=` at line 55 of the same file requires, `dict_keys + list` raises TypeError while the class body runs, so `MySQLOperations` is never defined.
- The `print` statement at line 59 of the permission bootstrap is Python 2 syntax in a file that also uses f-strings, so the file parses under no single Python version as written. The model leaves the verbosity output out and models the rest.
- The hooks `quote_name`/`qn`, `style.*`, `truncate_name`, `tablespace_sql`, `convert_values`, `reverse` and `get_urls` are uninterpreted parameters.

## Findings

| source | as written | input that shows it | evidently intended | confidence | as-written member | corrected member |
|---|---|---|---|---|---|---|
| django/db/backends/oracle/compiler.py:13-16 | `map(None, row[index_start:], fields)` under Python 3 stops at the shorter input and calls `None` on the first pair | an unsliced query with no `extra_select`, `row = [v]`: `fields=()` returns `()` and drops the column; `fields=[f]` raises TypeError | the columns paired with the fields, the shorter side padded with None, as Python 2's `map(None, ...)` did (`itertools.zip_longest`) | high, not executed | OracleCompiler.AsWrittenDropsColumn | OracleCompiler.ResolveColumns |
