/** The request-routing decisions of the Express server (server.js): the
    products endpoint, the home page and the named pages, as pure functions
    from the request path and the state of the products file to a reply. */
module Server {
  import opened Lists

  /** A parsed JSON value, as far as the server passes it through. */
  datatype Json =
    | JNull
    | JBool(b: bool)
    | JNumber(n: real)
    | JString(s: string)
    | JArray(elements: seq<Json>)
    | JObject(members: seq<(string, Json)>)

  /** What the server finds at data/products.json when a request arrives. */
  datatype ProductsFile =
    | Absent                  // `fs.existsSync` says no
    | Unreadable              // it exists, but `fs.readFileSync` throws
    | Present(text: string)   // it exists and reads as this text

  datatype Reply =
    | SendFile(status: int, file: string)   // `res.sendFile`, optionally after `res.status`
    | SendJson(status: int, body: Json)     // `res.json`, optionally after `res.status`
    | CannotGet(path: string)               // no route matched: Express's own 404 reply

  /** The three routes, in the order they are registered, and no match. */
  datatype Route = ProductsApi | Home | Page(segment: string) | NoRoute

  const ValidPages: seq<string> := ["about", "store", "cart", "contact"]

  function ErrorBody(message: string): Json
  {
    JObject([("error", JString(message))])
  }

  /** The `/api/products` handler. `parse` stands for `JSON.parse`, None
      meaning that it throws. */
  function ProductsReply(file: ProductsFile, parse: string -> Option<Json>): (r: Reply)
    ensures r.SendJson?
    ensures r.status == 200 <==> file.Present? && parse(file.text).Some?
    ensures r.status == 200 ==> r.body == parse(file.text).value
    ensures r.status != 200 ==> r.status == 500
    ensures file.Absent? ==> r.body == ErrorBody("Products file not found")
    ensures !file.Absent? && r.status != 200 ==> r.body == ErrorBody("Failed to load products")
  {
    match file
    case Absent => SendJson(500, ErrorBody("Products file not found"))
    case Unreadable => SendJson(500, ErrorBody("Failed to load products"))
    case Present(text) =>
      match parse(text)
      case None => SendJson(500, ErrorBody("Failed to load products"))
      case Some(products) => SendJson(200, products)
  }

  /** `String.prototype.toLowerCase`, restricted to ASCII letters. */
  function LowerChar(c: char): char
  {
    if 'A' <= c <= 'Z' then (c as int + 32) as char else c
  }

  function Lower(s: string): (r: string)
    ensures |r| == |s|
    ensures forall i :: 0 <= i < |r| ==> !('A' <= r[i] <= 'Z')
    ensures forall i :: 0 <= i < |s| && !('A' <= s[i] <= 'Z') ==> r[i] == s[i]
    ensures forall i :: 0 <= i < |s| && 'A' <= s[i] <= 'Z' ==> r[i] == (s[i] as int + 32) as char
  {
    seq(|s|, i requires 0 <= i < |s| => LowerChar(s[i]))
  }

  /** The `/:page` handler: the lower-cased segment picks a page from the
      allow-list, anything else gets the not-found page with status 404. */
  function PageReply(segment: string): (r: Reply)
    ensures r.SendFile?
    ensures r.status == 200 <==> Lower(segment) in ValidPages
    ensures r.status == 200 ==> r.file == "views/" + Lower(segment) + ".html"
    ensures r.status != 200 ==> r == SendFile(404, "views/404.html")
  {
    var page := Lower(segment);
    if page in ValidPages then SendFile(200, "views/" + page + ".html")
    else SendFile(404, "views/404.html")
  }

  /** Express matches routes ignoring case and allowing one trailing slash. */
  function DropTrailingSlash(s: string): string
  {
    if |s| > 0 && s[|s| - 1] == '/' then s[..|s| - 1] else s
  }

  /** Which route Express picks for `path`: the home route for "/" alone;
      the products route for "/api/products" in any letter case, with at most
      one trailing slash; the page route for one non-empty segment, with at
      most one trailing slash. */
  function MatchRoute(path: string): (r: Route)
    ensures r.Home? <==> path == "/"
    ensures r.ProductsApi? ==>
      |path| > 1 && path[0] == '/' && Lower(DropTrailingSlash(path[1..])) == "api/products"
    ensures r.Page? ==>
      r.segment != [] && '/' !in r.segment &&
      (path == "/" + r.segment || path == "/" + r.segment + "/")
  {
    if path == "/" then Home
    else if |path| == 0 || path[0] != '/' then NoRoute
    else
      var rest := DropTrailingSlash(path[1..]);
      if Lower(rest) == "api/products" then ProductsApi
      else if rest != [] && '/' !in rest then Page(rest)
      else NoRoute
  }

  /** The server's reply to `GET path`, for paths the static middleware does
      not answer first. */
  function Handle(path: string, file: ProductsFile, parse: string -> Option<Json>): (r: Reply)
    ensures r.SendJson? <==> MatchRoute(path).ProductsApi?
    ensures r.CannotGet? <==> MatchRoute(path).NoRoute?
    ensures r.CannotGet? ==> r.path == path
    ensures r.SendFile? && r.status == 200 ==>
      path == "/" || (MatchRoute(path).Page? && Lower(MatchRoute(path).segment) in ValidPages)
    ensures r.SendFile? && r.status != 200 ==> r == SendFile(404, "views/404.html")
  {
    match MatchRoute(path)
    case ProductsApi => ProductsReply(file, parse)
    case Home => SendFile(200, "views/index.html")
    case Page(segment) => PageReply(segment)
    case NoRoute => CannotGet(path)
  }

  lemma HandleHome(file: ProductsFile, parse: string -> Option<Json>)
    ensures Handle("/", file, parse) == SendFile(200, "views/index.html")
  {
  }

  /** Any single segment, with or without a trailing slash, is answered by the
      page handler. */
  lemma HandleSegment(segment: string, file: ProductsFile, parse: string -> Option<Json>)
    requires segment != [] && '/' !in segment
    ensures Handle("/" + segment, file, parse) == PageReply(segment)
    ensures Handle("/" + segment + "/", file, parse) == PageReply(segment)
  {
    assert ("/" + segment)[1..] == segment;
    assert ("/" + segment + "/")[1..] == segment + "/";
    assert (segment + "/")[..|segment|] == segment;
    assert Lower(segment) != "api/products" by {
      assert "api/products"[3] == '/';
    }
  }

  /** The products handler answers exactly the paths that read
      "/api/products" once lower-cased, with at most one trailing slash. */
  lemma HandleProducts(p: string, file: ProductsFile, parse: string -> Option<Json>)
    ensures MatchRoute(p).ProductsApi? <==> Lower(p) == "/api/products" || Lower(p) == "/api/products/"
    ensures MatchRoute(p).ProductsApi? ==> Handle(p, file, parse) == ProductsReply(file, parse)
  {
    if Lower(p) == "/api/products" || Lower(p) == "/api/products/" {
      ProductsPathsRoute(p);
    }
    if MatchRoute(p).ProductsApi? {
      ProductsRouteLowersTo(p);
    }
  }

  /** Every spelling of the two products paths is routed to the handler. */
  lemma ProductsPathsRoute(p: string)
    requires Lower(p) == "/api/products" || Lower(p) == "/api/products/"
    ensures MatchRoute(p).ProductsApi?
  {
    assert "/api/products"[1..] == "api/products";
    assert Lower("api/products") == "api/products";
    assert "/api/products/"[1..] == "api/products/";
    assert DropTrailingSlash("api/products/") == "api/products";
    if Lower(p) == "/api/products" {
      assert MatchRoute("/api/products").ProductsApi?;
      assert Lower("/api/products") == "/api/products";
      MatchRouteCaseInsensitive(p, "/api/products");
    } else {
      assert MatchRoute("/api/products/").ProductsApi?;
      assert Lower("/api/products/") == "/api/products/";
      MatchRouteCaseInsensitive(p, "/api/products/");
    }
  }

  /** A path routed to the products handler lower-cases to one of the two
      products paths. */
  lemma ProductsRouteLowersTo(p: string)
    requires MatchRoute(p).ProductsApi?
    ensures Lower(p) == "/api/products" || Lower(p) == "/api/products/"
  {
    var d := DropTrailingSlash(p[1..]);
    assert p == "/" + d || p == "/" + d + "/";
    LowerSlashed(d);
    SlashedProducts(Lower(d));
  }

  lemma SlashedProducts(l: string)
    requires l == "api/products"
    ensures "/" + l == "/api/products" && "/" + l + "/" == "/api/products/"
  {
  }

  /** Lower-casing leaves the slashes around a segment in place. */
  lemma LowerSlashed(d: string)
    ensures Lower("/" + d) == "/" + Lower(d)
    ensures Lower("/" + d + "/") == "/" + Lower(d) + "/"
  {
    LowerConcat("/", d);
    LowerConcat("/" + d, "/");
  }

  /** Lower-casing commutes with concatenation. */
  lemma LowerConcat(a: string, b: string)
    ensures Lower(a + b) == Lower(a) + Lower(b)
  {
  }

  /** An upper-case page name is served the lower-case page's file. */
  lemma PageReplyUpperCase()
    ensures PageReply("ABOUT") == SendFile(200, "views/about.html")
  {
    assert Lower("ABOUT") == "about";
  }

  /** A single segment outside the allow-list gets the 404 page, whatever the
      products file holds. */
  lemma HandleUnknownPage(segment: string, file: ProductsFile, parse: string -> Option<Json>)
    requires segment != [] && '/' !in segment
    requires Lower(segment) !in ValidPages
    ensures Handle("/" + segment, file, parse) == SendFile(404, "views/404.html")
  {
    HandleSegment(segment, file, parse);
  }

  lemma LowerCharSlash(c: char)
    ensures LowerChar(c) == '/' <==> c == '/'
  {
  }

  /** Lower-casing commutes with taking a slice. */
  lemma LowerSlice(s: string, lo: nat, hi: nat)
    requires lo <= hi <= |s|
    ensures Lower(s[lo..hi]) == Lower(s)[lo..hi]
  {
  }

  /** Two strings equal up to ASCII case have their slashes in the same places. */
  lemma SameSlashes(s: string, t: string)
    requires Lower(s) == Lower(t)
    ensures |s| == |t|
    ensures forall i :: 0 <= i < |s| ==> (s[i] == '/' <==> t[i] == '/')
  {
    forall i | 0 <= i < |s| ensures s[i] == '/' <==> t[i] == '/' {
      assert Lower(s)[i] == LowerChar(s[i]);
      assert Lower(t)[i] == LowerChar(t[i]);
      LowerCharSlash(s[i]);
      LowerCharSlash(t[i]);
    }
  }

  /** Strings equal up to ASCII case agree on containing a slash. */
  lemma SlashInCaseInsensitive(s: string, t: string)
    requires Lower(s) == Lower(t)
    ensures '/' in s <==> '/' in t
  {
    SameSlashes(s, t);
    if '/' in s {
      var k :| 0 <= k < |s| && s[k] == '/';
      assert t[k] == '/';
    }
    if '/' in t {
      var k :| 0 <= k < |t| && t[k] == '/';
      assert s[k] == '/';
    }
  }

  /** Dropping a trailing slash keeps two strings equal up to ASCII case. */
  lemma DropTrailingSlashCaseInsensitive(s: string, t: string)
    requires Lower(s) == Lower(t)
    ensures var ds, dt := DropTrailingSlash(s), DropTrailingSlash(t);
      Lower(ds) == Lower(dt) && |ds| == |dt|
  {
    SameSlashes(s, t);
    var ds, dt := DropTrailingSlash(s), DropTrailingSlash(t);
    LowerSlice(s, 0, |ds|);
    LowerSlice(t, 0, |dt|);
    assert s[..|ds|] == ds && t[..|dt|] == dt;
  }

  /** What the routes look at after the leading slash agrees up to case for
      two paths equal up to case. */
  lemma RestCaseInsensitive(p: string, q: string)
    requires Lower(p) == Lower(q)
    requires |p| > 0 && p[0] == '/'
    ensures |q| > 0 && q[0] == '/'
    ensures var dp, dq := DropTrailingSlash(p[1..]), DropTrailingSlash(q[1..]);
      Lower(dp) == Lower(dq) && |dp| == |dq| && ('/' in dp <==> '/' in dq)
  {
    SameSlashes(p, q);
    var rp, rq := p[1..], q[1..];
    LowerSlice(p, 1, |p|);
    LowerSlice(q, 1, |q|);
    assert p[1..|p|] == rp && q[1..|q|] == rq;
    DropTrailingSlashCaseInsensitive(rp, rq);
    SlashInCaseInsensitive(DropTrailingSlash(rp), DropTrailingSlash(rq));
  }

  /** Paths that differ only in ASCII case take the same route, up to the
      letter case of a page segment. */
  lemma MatchRouteCaseInsensitive(p: string, q: string)
    requires Lower(p) == Lower(q)
    ensures MatchRoute(p).ProductsApi? <==> MatchRoute(q).ProductsApi?
    ensures MatchRoute(p).Home? <==> MatchRoute(q).Home?
    ensures MatchRoute(p).NoRoute? <==> MatchRoute(q).NoRoute?
    ensures MatchRoute(p).Page? && MatchRoute(q).Page? ==>
      Lower(MatchRoute(p).segment) == Lower(MatchRoute(q).segment)
  {
    SameSlashes(p, q);
    if p == "/" || q == "/" {
      assert |p| == 1 && |q| == 1;
      assert p[0] == '/' && q[0] == '/';
      assert p == "/" && q == "/";
    } else if |p| > 0 && p[0] == '/' {
      RestCaseInsensitive(p, q);
    }
  }

  /** Paths that differ only in ASCII case get the same reply, except that
      Express's own 404 echoes the path as it was written. */
  lemma HandleCaseInsensitive(p: string, q: string, file: ProductsFile, parse: string -> Option<Json>)
    requires Lower(p) == Lower(q)
    ensures Handle(p, file, parse).CannotGet? <==> Handle(q, file, parse).CannotGet?
    ensures !Handle(p, file, parse).CannotGet? ==> Handle(p, file, parse) == Handle(q, file, parse)
  {
    MatchRouteCaseInsensitive(p, q);
    match MatchRoute(p)
    case Page(s) =>
      var t := MatchRoute(q).segment;
      assert PageReply(s) == PageReply(t);
    case _ =>
  }
}
