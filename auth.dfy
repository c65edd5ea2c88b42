/**
 * The cookie reader and the request gate of lib/auth.ts.  `decodeURIComponent` is a parameter
 * that may fail (`None`, a thrown URIError); a failure propagates out of the gate.
 */
module Auth {
  import opened Wrappers
  import opened Text

  /** `part.trim().split('=')` destructured as `[k, v]`, with `v || ''`. */
  function CookiePair(part: string): (string, string) {
    var pieces := Split(Trim(part), '=');
    (pieces[0], if |pieces| > 1 then pieces[1] else "")
  }

  /** The map after the given `;`-parts: an empty key is skipped, a later key overwrites. */
  function CookieFold(parts: seq<string>, decode: string -> Option<string>): Result<map<string, string>> {
    if parts == [] then Ok(map[])
    else
      match CookieFold(parts[..|parts| - 1], decode)
      case Err(e) => Err(e)
      case Ok(m) =>
        var (k, v) := CookiePair(parts[|parts| - 1]);
        if k == "" then Ok(m)
        else
          match decode(v)
          case None => Err("URIError")
          case Some(d) => Ok(m[k := d])
  }

  /** `parseCookies(header)`: an undefined or empty header gives the empty map. */
  function Cookies(header: Option<string>, decode: string -> Option<string>): Result<map<string, string>> {
    match header
    case None => Ok(map[])
    case Some(h) => if h == "" then Ok(map[]) else CookieFold(Split(h, ';'), decode)
  }

  /** Reading one more part applies that part to the map of the parts before it. */
  lemma FoldStep(parts: seq<string>, decode: string -> Option<string>, i: nat)
    requires i < |parts|
    ensures CookieFold(parts[..i + 1], decode) ==
      match CookieFold(parts[..i], decode)
      case Err(e) => Err(e)
      case Ok(m) =>
        if CookiePair(parts[i]).0 == "" then Ok(m)
        else
          match decode(CookiePair(parts[i]).1)
          case None => Err("URIError")
          case Some(d) => Ok(m[CookiePair(parts[i]).0 := d])
  {
    assert parts[..i + 1][..i] == parts[..i];
    assert parts[..i + 1][i] == parts[i];
  }

  /** `parseCookies`: the map is filled part by part. */
  method ParseCookies(header: Option<string>, decode: string -> Option<string>) returns (r: Result<map<string, string>>)
    ensures r == Cookies(header, decode)
  {
    var m: map<string, string> := map[];
    if header.None? || header.value == "" {
      return Ok(m);
    }
    var parts := Split(header.value, ';');
    for i := 0 to |parts|
      invariant CookieFold(parts[..i], decode) == Ok(m)
    {
      FoldStep(parts, decode, i);
      var pieces := Split(Trim(parts[i]), '=');
      var k := pieces[0];
      var v := if |pieces| > 1 then pieces[1] else "";
      assert (k, v) == CookiePair(parts[i]);
      if k != "" {
        var d := decode(v);
        if d.None? {
          FoldFailureSticks(parts, decode, i + 1);
          return Err("URIError");
        }
        m := m[k := d.value];
      }
    }
    assert parts[..|parts|] == parts;
    return Ok(m);
  }

  /** Once a part fails to decode, the whole header fails. */
  lemma {:induction false} FoldFailureSticks(parts: seq<string>, decode: string -> Option<string>, i: nat)
    requires i <= |parts| && CookieFold(parts[..i], decode).Err?
    ensures CookieFold(parts, decode) == CookieFold(parts[..i], decode)
    decreases |parts|
  {
    if i < |parts| {
      assert parts[..|parts| - 1][..i] == parts[..i];
      FoldFailureSticks(parts[..|parts| - 1], decode, i);
    } else {
      assert parts[..i] == parts;
    }
  }

  /** `isAuthenticated`: the `auth` cookie decodes to exactly "1". */
  function IsAuthenticated(header: Option<string>, decode: string -> Option<string>): Result<bool> {
    match Cookies(header, decode)
    case Err(e) => Err(e)
    case Ok(m) => Ok("auth" in m && m["auth"] == "1")
  }

  /** What `authGate` does with a request. */
  datatype Gate = Pass | RedirectTo(location: string) | Unauthorized | Failed

  const AllowPaths: seq<string> := ["/login", "/logout", "/login.html"]

  /** `authGate(req)`: the allowed paths pass without reading cookies. */
  function AuthGate(path: string, verb: string, header: Option<string>, decode: string -> Option<string>): Gate {
    if path in AllowPaths then Pass
    else
      match IsAuthenticated(header, decode)
      case Err(_) => Failed
      case Ok(auth) =>
        if auth then Pass
        else if verb == "GET" then RedirectTo("/login.html")
        else Unauthorized
  }

  // ---- properties ----

  /** No header, or an empty one, reads as no cookies. */
  lemma EmptyHeaderNoCookies(decode: string -> Option<string>)
    ensures Cookies(None, decode) == Ok(map[]) && Cookies(Some(""), decode) == Ok(map[])
  {
  }

  /** The key is the text before the first '=', the value the text up to a second '=' (the rest is dropped). */
  lemma KeyUpToFirstEquals(k: string, v: string, w: string)
    requires '=' !in k && '=' !in v
    requires Trim(k + "=" + v + "=" + w) == k + "=" + v + "=" + w
    ensures CookiePair(k + "=" + v + "=" + w) == (k, v)
  {
    var s := k + "=" + v + "=" + w;
    var tail := v + "=" + w;
    assert s == k + ['='] + tail;
    assert tail == v + ['='] + w;
    SplitFirst(k, '=', tail);
    SplitFirst(v, '=', w);
    var pieces := Split(s, '=');
    assert pieces == [k] + ([v] + Split(w, '='));
    assert pieces[0] == k && pieces[1] == v;
  }

  /** A part without '=' is a key with the empty value. */
  lemma NoEqualsEmptyValue(part: string)
    requires '=' !in Trim(part)
    ensures CookiePair(part) == (Trim(part), "")
  {
  }

  /** A part that trims to nothing, or starts with '=', adds nothing. */
  lemma EmptyKeySkipped(parts: seq<string>, part: string, decode: string -> Option<string>)
    requires CookiePair(part).0 == ""
    ensures CookieFold(parts + [part], decode) == CookieFold(parts, decode)
  {
    assert (parts + [part])[..|parts|] == parts;
  }

  /** A later part with the same key overwrites the earlier value. */
  lemma LaterCookieWins(parts: seq<string>, part: string, decode: string -> Option<string>)
    requires CookieFold(parts, decode).Ok?
    requires CookiePair(part).0 != "" && decode(CookiePair(part).1).Some?
    ensures var (k, v) := CookiePair(part);
      CookieFold(parts + [part], decode) == Ok(CookieFold(parts, decode).value[k := decode(v).value])
  {
    assert (parts + [part])[..|parts|] == parts;
  }

  /** A value that fails to decode fails the whole header, whatever follows. */
  lemma BadValueFails(parts: seq<string>, j: nat, decode: string -> Option<string>)
    requires j < |parts| && CookieFold(parts[..j], decode).Ok?
    requires CookiePair(parts[j]).0 != "" && decode(CookiePair(parts[j]).1).None?
    ensures CookieFold(parts, decode).Err?
  {
    BadValueStops(parts, j, decode);
    FoldFailureSticks(parts, decode, j + 1);
  }

  /** A part whose value fails to decode, after parts that decoded, fails the fold there. */
  lemma BadValueStops(parts: seq<string>, j: nat, decode: string -> Option<string>)
    requires j < |parts| && CookieFold(parts[..j], decode).Ok?
    requires CookiePair(parts[j]).0 != "" && decode(CookiePair(parts[j]).1).None?
    ensures CookieFold(parts[..j + 1], decode).Err?
  {
    FoldStep(parts, decode, j);
  }

  /** The gate's four outcomes. */
  lemma GateDecisions(path: string, verb: string, header: Option<string>, decode: string -> Option<string>)
    ensures path in AllowPaths ==> AuthGate(path, verb, header, decode) == Pass
    ensures path !in AllowPaths ==>
      var auth := IsAuthenticated(header, decode);
      (AuthGate(path, verb, header, decode) == Pass <==> auth == Ok(true)) &&
      (AuthGate(path, verb, header, decode) == RedirectTo("/login.html") <==> auth == Ok(false) && verb == "GET") &&
      (AuthGate(path, verb, header, decode) == Unauthorized <==> auth == Ok(false) && verb != "GET") &&
      (AuthGate(path, verb, header, decode) == Failed <==> auth.Err?)
  {
  }

  /** `auth=1` is enough to pass, as long as "1" decodes to itself. */
  lemma AuthOneCookiePasses(path: string, verb: string, decode: string -> Option<string>)
    requires decode("1") == Some("1")
    ensures AuthGate(path, verb, Some("auth=1"), decode) == Pass
  {
    AuthOneCookie(decode);
  }

  lemma AuthOneCookie(decode: string -> Option<string>)
    requires decode("1") == Some("1")
    ensures Cookies(Some("auth=1"), decode) == Ok(map["auth" := "1"])
  {
    AuthOnePart();
    AuthOnePair();
    SinglePart("auth=1", decode);
  }

  /** `auth=1` holds no `;`: it is one part. */
  lemma AuthOnePart()
    ensures Split("auth=1", ';') == ["auth=1"]
  {
    var h := "auth=1";
    assert forall i :: 0 <= i < |h| ==> h[i] != ';';
    SplitWhole(h, ';');
  }

  /** A header of one part with a non-empty key holds that key with its decoded value. */
  lemma SinglePart(part: string, decode: string -> Option<string>)
    requires CookiePair(part).0 != "" && decode(CookiePair(part).1).Some?
    ensures CookieFold([part], decode) == Ok(map[CookiePair(part).0 := decode(CookiePair(part).1).value])
  {
    assert [part][..0] == [];
  }

  lemma AuthOnePair()
    ensures CookiePair("auth=1") == ("auth", "1")
  {
    var h := "auth=1";
    TrimClean(h);
    assert "auth" + ['='] + "1" == h;
    SplitFirst("auth", '=', "1");
    assert Split("1", '=') == ["1"] by {
      assert IndexOf("1", '=') == None;
    }
  }
}
