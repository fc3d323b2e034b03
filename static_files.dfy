/**
 * `handleStaticFile` and `getMimeType` of src/utils/static.js: the requested
 * path is normalised (root to index.html, "/static/" prefix removed), looked
 * up in a fixed table of six files, and served with a Content-Type chosen by
 * the file's extension.
 */
module StaticFiles {
  import opened Wrappers
  import opened Strings

  /** The keys of the `staticFiles` table; the file contents are not modelled. */
  predicate IsFile(name: string) {
    name == "index.html" || name == "embed.html" || name == "embed-dark.html"
    || name == "admin.html" || name == "style.css" || name == "app.js"
  }

  /** The `mimeTypes` table of `getMimeType`. */
  function MimeFor(ext: string): Option<string> {
    if ext == "html" then Some("text/html")
    else if ext == "css" then Some("text/css")
    else if ext == "js" then Some("application/javascript")
    else if ext == "json" then Some("application/json")
    else if ext == "png" then Some("image/png")
    else if ext == "jpg" then Some("image/jpeg")
    else if ext == "jpeg" then Some("image/jpeg")
    else if ext == "gif" then Some("image/gif")
    else if ext == "svg" then Some("image/svg+xml")
    else if ext == "ico" then Some("image/x-icon")
    else None
  }

  const DefaultMime := "text/plain"
  const StaticPrefix := "/static/"
  const CacheControl := "public, max-age=3600"

  /** The properties every object literal inherits from Object.prototype. */
  const InheritedNames: set<string> := {
    "constructor", "__proto__", "hasOwnProperty", "isPrototypeOf", "propertyIsEnumerable",
    "toString", "toLocaleString", "valueOf",
    "__defineGetter__", "__defineSetter__", "__lookupGetter__", "__lookupSetter__"}

  /** `filename.split('.').pop().toLowerCase()`. */
  function Extension(filename: string): string {
    ToLower(AfterLastDot(filename))
  }

  /** `getMimeType`, looking up own table entries only. */
  function GetMimeType(filename: string): (m: string)
    ensures MimeFor(Extension(filename)).Some? ==> m == MimeFor(Extension(filename)).value
    ensures MimeFor(Extension(filename)).None? ==> m == DefaultMime
  {
    match MimeFor(Extension(filename))
    case Some(mime) => mime
    case None => DefaultMime
  }

  /** The lookup ignores case: lower-casing the name first changes nothing. */
  lemma MimeTypeIgnoresCase(filename: string)
    ensures GetMimeType(ToLower(filename)) == GetMimeType(filename)
  {
    AfterLastDotToLower(filename);
    ToLowerIdempotent(AfterLastDot(filename));
  }

  /** The extension is what follows the last '.', lower-cased. */
  lemma MimeTypeOfName(base: string, ext: string)
    requires '.' !in ext
    ensures GetMimeType(base + "." + ext) ==
      if MimeFor(ToLower(ext)).Some? then MimeFor(ToLower(ext)).value else DefaultMime
  {
    AfterLastDotOfName(base, ext);
  }

  /** A name without '.' is its own extension. */
  lemma MimeTypeWithoutDot(filename: string)
    requires '.' !in filename
    ensures GetMimeType(filename) ==
      if MimeFor(ToLower(filename)).Some? then MimeFor(ToLower(filename)).value else DefaultMime
  {
    AfterLastDotWithoutDot(filename);
  }

  lemma UpperCaseHtml()
    ensures GetMimeType("X.HTML") == "text/html"
  {
    assert "X.HTML" == "X" + "." + "HTML";
    MimeTypeOfName("X", "HTML");
    assert ToLower("HTML") == "html";
  }

  /** `path || url.pathname`: an absent or empty argument falls back to the URL's path. */
  function RequestedPath(given: Option<string>, pathname: string): string {
    if given.None? || given.value == "" then pathname else given.value
  }

  /** The two rewrites of `handleStaticFile`, root check first. */
  function Normalise(path: string): string {
    var p := if path == "/" || path == "" then "index.html" else path;
    if StartsWith(p, StaticPrefix) then p[|StaticPrefix|..] else p
  }

  datatype StaticResponse =
    | NotFound
    | Served(name: string, contentType: string, cacheControl: string)
  {
    function Status(): nat {
      if NotFound? then 404 else 200
    }
  }

  /** `handleStaticFile`, with file lookup on the table's own keys. */
  function HandleStaticFile(given: Option<string>, pathname: string): (r: StaticResponse)
    ensures r.Served? <==> IsFile(Normalise(RequestedPath(given, pathname)))
    ensures r.Served? ==>
      r.name == Normalise(RequestedPath(given, pathname)) && r.contentType == GetMimeType(r.name)
      && r.cacheControl == CacheControl
  {
    var path := Normalise(RequestedPath(given, pathname));
    if !IsFile(path) then NotFound else Served(path, GetMimeType(path), CacheControl)
  }

  lemma RootIsIndex()
    ensures Normalise("/") == "index.html" && Normalise("") == "index.html"
  {
    assert "index.html"[0] != StaticPrefix[0];
  }

  /** Exactly the eight characters of "/static/" are removed. */
  lemma StaticPrefixRemoved(name: string)
    ensures Normalise(StaticPrefix + name) == name
  {
    var p := StaticPrefix + name;
    assert p != "/" && p != "" by { assert |p| >= 8; }
    assert p[..|StaticPrefix|] == StaticPrefix;
    assert p[|StaticPrefix|..] == name;
  }

  lemma BareStaticPrefixIsEmpty()
    ensures Normalise(StaticPrefix) == ""
  {
    StaticPrefixRemoved("");
    assert StaticPrefix + "" == StaticPrefix;
  }

  /** The root check runs before the prefix is removed, so "/static/" asks for "" and gets 404. */
  lemma BareStaticPrefixNotFound(pathname: string)
    ensures HandleStaticFile(Some(StaticPrefix), pathname) == NotFound
    ensures HandleStaticFile(None, StaticPrefix) == NotFound
  {
    BareStaticPrefixIsEmpty();
  }

  lemma UnknownNameNotFound(name: string, pathname: string)
    requires !IsFile(name) && name != "" && name != "/" && !StartsWith(name, StaticPrefix)
    ensures HandleStaticFile(Some(name), pathname) == NotFound
    ensures HandleStaticFile(Some(name), pathname).Status() == 404
  {
  }

  lemma HtmlName(base: string)
    requires '.' !in base
    ensures GetMimeType(base + ".html") == "text/html"
  {
    assert ToLower("html") == "html";
    assert base + ".html" == base + "." + "html";
    MimeTypeOfName(base, "html");
  }

  lemma ServedNameTypes()
    ensures GetMimeType("index.html") == "text/html"
    ensures GetMimeType("embed.html") == "text/html"
    ensures GetMimeType("embed-dark.html") == "text/html"
    ensures GetMimeType("admin.html") == "text/html"
    ensures GetMimeType("style.css") == "text/css"
    ensures GetMimeType("app.js") == "application/javascript"
  {
    IndexName();
    EmbedName();
    EmbedDarkName();
    AdminName();
    StyleName();
    AppName();
  }

  lemma IndexName()
    ensures GetMimeType("index.html") == "text/html"
  {
    HtmlName("index");
    assert "index" + ".html" == "index.html";
  }

  lemma EmbedName()
    ensures GetMimeType("embed.html") == "text/html"
  {
    HtmlName("embed");
    assert "embed" + ".html" == "embed.html";
  }

  lemma EmbedDarkName()
    ensures GetMimeType("embed-dark.html") == "text/html"
  {
    HtmlName("embed-dark");
    assert "embed-dark" + ".html" == "embed-dark.html";
  }

  lemma AdminName()
    ensures GetMimeType("admin.html") == "text/html"
  {
    HtmlName("admin");
    assert "admin" + ".html" == "admin.html";
  }

  lemma StyleName()
    ensures GetMimeType("style.css") == "text/css"
  {
    assert ToLower("css") == "css";
    assert "style.css" == "style" + "." + "css";
    MimeTypeOfName("style", "css");
  }

  lemma AppName()
    ensures GetMimeType("app.js") == "application/javascript"
  {
    assert ToLower("js") == "js";
    assert "app.js" == "app" + "." + "js";
    MimeTypeOfName("app", "js");
  }

  /** Every served file is HTML, CSS or JavaScript, cached for an hour. */
  lemma ServedContentTypes(given: Option<string>, pathname: string)
    ensures var r := HandleStaticFile(given, pathname);
      r.Served? ==>
        && r.Status() == 200 && r.cacheControl == "public, max-age=3600"
        && r.contentType in {"text/html", "text/css", "application/javascript"}
  {
    ServedNameTypes();
  }

  /** The `staticFiles[path]` test as written: inherited property names are truthy too. */
  predicate FileLookupAsWritten(name: string) {
    IsFile(name) || name in InheritedNames
  }

  /**
   * As written, "/static/constructor" passes the existence test (it finds
   * Object.prototype.constructor) although no such file exists; the model
   * answers 404.
   */
  lemma InheritedNamePassesLookup()
    ensures FileLookupAsWritten(Normalise("/static/constructor"))
    ensures !IsFile(Normalise("/static/constructor"))
    ensures HandleStaticFile(None, "/static/constructor") == NotFound
  {
    assert "/static/constructor" == StaticPrefix + "constructor";
    StaticPrefixRemoved("constructor");
  }

  /** `mimeTypes[ext] || 'text/plain'` as written: an inherited property name skips the default. */
  predicate MimeEntryAsWritten(filename: string) {
    MimeFor(Extension(filename)).Some? || Extension(filename) in InheritedNames
  }

  /**
   * As written, "a.constructor" finds Object.prototype.constructor (a
   * function) instead of falling back to text/plain; the model gives text/plain.
   */
  lemma InheritedExtensionSkipsDefault()
    ensures MimeEntryAsWritten("a.constructor") && MimeFor(Extension("a.constructor")).None?
    ensures GetMimeType("a.constructor") == DefaultMime
  {
    assert "a.constructor" == "a" + "." + "constructor";
    AfterLastDotOfName("a", "constructor");
    assert ToLower("constructor") == "constructor";
  }
}
