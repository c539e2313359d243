/** Bucket URLs: the printer, and the parser as it is built on Go's url.Parse. */
module BucketUrls {
  import opened Basics
  import opened Checksums

  datatype BucketUrl = BucketUrl(scheme: string, bucket: string, path: string)

  function Print(b: BucketUrl): string {
    b.scheme + "://" + b.bucket + "/" + b.path
  }

  function Join(dir: string, name: string): string {
    if dir == "" then name else dir + "/" + name
  }

  /******* Cutting strings *******/

  /** The first index of `c`, or the length. */
  function Find(s: string, c: char): (k: nat)
    ensures k <= |s| && (k < |s| ==> s[k] == c) && forall i :: 0 <= i < k ==> s[i] != c
  {
    if s == "" || s[0] == c then 0 else 1 + Find(s[1..], c)
  }

  /** The last index of `c`, or -1. */
  function FindLast(s: string, c: char): (k: int)
    ensures -1 <= k < |s| && (k >= 0 ==> s[k] == c) && forall i :: k < i < |s| ==> s[i] != c
  {
    if s == "" then -1 else if s[|s| - 1] == c then |s| - 1 else FindLast(s[..|s| - 1], c)
  }

  function Upto(s: string, c: char): string {
    s[..Find(s, c)]
  }

  predicate Free(s: string, c: char) {
    c !in s
  }

  function TrimSlash(s: string): string {
    if s != "" && s[0] == '/' then s[1..] else s
  }

  /******* Characters *******/

  predicate Letter(c: char) {
    'a' <= c <= 'z' || 'A' <= c <= 'Z'
  }

  predicate Control(c: char) {
    c < ' ' || c == '\U{7F}'
  }

  /** What a host may contain unescaped: everything above ASCII, and these. */
  predicate HostChar(c: char) {
    Letter(c) || Digit(c) || c >= '\U{80}' || c in "-_.~!$&'()*+,;=:[]<>\""
  }

  predicate UserChar(c: char) {
    Letter(c) || Digit(c) || c in "-._:~!$&'()*+,;=%@"
  }

  /******* Percent escapes *******/

  datatype Mode = InPath | InHost

  /** In a host only `%25` and escapes of bytes above ASCII are accepted. */
  predicate EscapeAllowed(mode: Mode, hi: char, lo: char) {
    HexValue(hi).Some? && HexValue(lo).Some? && (mode.InPath? || HexValue(hi).value >= 8 || (hi == '2' && lo == '5'))
  }

  function Unescape(mode: Mode, s: string): (r: Result<string>)
    ensures r.Ok? ==> |r.value| <= |s|
  {
    if s == "" then Ok("")
    else if s[0] == '%' then
      if |s| < 3 || !EscapeAllowed(mode, s[1], s[2]) then Error("invalid URL escape")
      else
        var rest := Unescape(mode, s[3..]);
        if rest.Error? then rest else Ok([(HexValue(s[1]).value * 16 + HexValue(s[2]).value) as char] + rest.value)
    else if mode.InHost? && !HostChar(s[0]) then Error("invalid character in host name")
    else
      var rest := Unescape(mode, s[1..]);
      if rest.Error? then rest else Ok([s[0]] + rest.value)
  }

  /** Escapes shrink, and without escapes nothing changes. */
  lemma {:induction false} UnescapeKeeps(mode: Mode, s: string)
    ensures var r := Unescape(mode, s);
            (r.Ok? && |r.value| == |s|)
              <==> (Free(s, '%') && (mode.InHost? ==> forall i :: 0 <= i < |s| ==> HostChar(s[i])))
    ensures var r := Unescape(mode, s); r.Ok? && |r.value| == |s| ==> r.value == s
  {
    if s != "" {
      if s[0] == '%' {
        assert '%' in s;
      } else {
        UnescapeKeeps(mode, s[1..]);
        assert s == [s[0]] + s[1..];
        if mode.InHost? && forall i :: 0 <= i < |s| ==> HostChar(s[i]) {
          assert forall i :: 0 <= i < |s| - 1 ==> s[1..][i] == s[i + 1];
        }
      }
    }
  }

  /******* The parser *******/

  datatype Url = Url(scheme: string, host: string, path: string)

  /** Some(k): the scheme is the first k characters; Some(0) stands for a missing scheme before a colon. */
  function SchemeEnd(s: string, from: nat): (k: Option<nat>)
    requires from <= |s|
    ensures k.Some? ==>
              from <= k.value < |s| && s[k.value] == ':' && forall i :: from <= i < k.value ==> SchemeChar(s[i])
    ensures k.Some? && from == 0 && k.value > 0 ==> Letter(s[0])
    ensures k.None? && from < |s| ==> !(exists j :: from <= j < |s| && s[j] == ':' && (j > 0 ==> Letter(s[0]))
                                                    && forall i :: from <= i < j ==> SchemeChar(s[i]))
    decreases |s| - from
  {
    if from == |s| then None
    else if Letter(s[from]) || (SchemeChar(s[from]) && from > 0) then SchemeEnd(s, from + 1)
    else if s[from] == ':' then Some(from)
    else None
  }

  predicate SchemeChar(c: char) {
    Letter(c) || Digit(c) || c in "+-."
  }

  predicate ValidPort(s: string) {
    s == "" || (s[0] == ':' && forall i :: 1 <= i < |s| ==> Digit(s[i]))
  }

  /** The optional port: after the bracket of an IP literal, otherwise from the last colon. */
  predicate PortOk(host: string) {
    if host != "" && host[0] == '[' then
      FindLast(host, ']') >= 0 && ValidPort(host[FindLast(host, ']') + 1..])
    else FindLast(host, ':') >= 0 ==> ValidPort(host[FindLast(host, ':')..])
  }

  function ParseHost(host: string): (r: Result<string>)
    ensures r.Ok? ==> |r.value| <= |host|
  {
    if !PortOk(host) then Error("invalid port after host") else Unescape(InHost, host)
  }

  function ParseAuthority(authority: string): (r: Result<string>)
    ensures r.Ok? ==> |r.value| <= |authority|
  {
    var at := FindLast(authority, '@');
    if at < 0 then ParseHost(authority)
    else if exists i :: 0 <= i < at && !UserChar(authority[i]) then Error("invalid userinfo")
    else if Unescape(InPath, authority[..at]).Error? then Error("invalid URL escape")
    else ParseHost(authority[at + 1..])
  }

  /** A URL with authority: `rest` is what follows the scheme and the two slashes. */
  function ParseRest(scheme: string, rest: string): Result<Url> {
    var slash := Find(rest, '/');
    var host := ParseAuthority(rest[..slash]);
    if host.Error? then Error(host.message)
    else
      var path := Unescape(InPath, rest[slash..]);
      if path.Error? then Error(path.message) else Ok(Url(scheme, host.value, path.value))
  }

  function ParsePathOnly(scheme: string, rest: string): Result<Url> {
    var path := Unescape(InPath, rest);
    if path.Error? then Error(path.message) else Ok(Url(scheme, "", path.value))
  }

  function ParseHier(scheme: string, rest: string): Result<Url> {
    if rest == "" || rest[0] != '/' then
      if scheme != "" then Ok(Url(scheme, "", ""))
      else if !Free(Upto(rest, '/'), ':') then Error("first path segment in URL cannot contain colon")
      else ParsePathOnly(scheme, rest)
    else if |rest| >= 2 && rest[1] == '/' && (scheme != "" || !(|rest| >= 3 && rest[2] == '/')) then
      ParseRest(scheme, rest[2..])
    else ParsePathOnly(scheme, rest)
  }

  function ParseUrl(raw: string): Result<Url> {
    var text := Upto(raw, '#');
    if exists i :: 0 <= i < |text| && Control(text[i]) then Error("invalid control character in URL")
    else if |text| < |raw| && Unescape(InPath, raw[|text| + 1..]).Error? then Error("invalid URL escape")
    else if text == "*" then Ok(Url("", "", "*"))
    else
      match SchemeEnd(text, 0)
      case Some(k) =>
        if k == 0 then Error("missing protocol scheme")
        else ParseHier(Lower(text[..k]), Upto(text[k + 1..], '?'))
      case None => ParseHier("", Upto(text, '?'))
  }

  function Parse(text: string): Result<BucketUrl> {
    match ParseUrl(text)
    case Error(message) => Error(message)
    case Ok(u) => Ok(BucketUrl(u.scheme, u.host, TrimSlash(u.path)))
  }

  /******* The round trip *******/

  predicate ValidScheme(s: string) {
    s != "" && Letter(s[0]) && (forall i :: 0 <= i < |s| ==> SchemeChar(s[i])) && Lower(s) == s
  }

  predicate ValidBucket(s: string) {
    (forall i :: 0 <= i < |s| ==> HostChar(s[i])) && PortOk(s)
  }

  predicate ValidPath(s: string) {
    Free(s, '%') && Free(s, '?') && Free(s, '#') && forall i :: 0 <= i < |s| ==> !Control(s[i])
  }

  predicate Valid(b: BucketUrl) {
    ValidScheme(b.scheme) && ValidBucket(b.bucket) && ValidPath(b.path)
  }

  lemma FindAt(s: string, c: char, k: nat)
    requires k <= |s| && (k < |s| ==> s[k] == c) && forall i :: 0 <= i < k ==> s[i] != c
    ensures Find(s, c) == k
  {
  }

  lemma FindLastNone(s: string, c: char)
    requires Free(s, c)
    ensures FindLast(s, c) == -1
  {
  }

  /** The last of its kind splits a text. */
  lemma LastSplits(before: string, c: char, after: string)
    requires c !in after
    ensures var s := before + [c] + after;
            FindLast(s, c) == |before| && s[..|before|] == before && s[|before| + 1..] == after
  {
    hide FindLast;
    var s := before + [c] + after;
    assert s[|before|] == c;
    assert FindLast(s, c) <= |before|;
  }

  /** What is left of a printed URL after its scheme. */
  function Tail(b: BucketUrl): string {
    "//" + b.bucket + "/" + b.path
  }

  lemma Shape(b: BucketUrl)
    ensures Print(b) == b.scheme + ":" + Tail(b)
    ensures |Print(b)| == |b.scheme| + 1 + |Tail(b)| && Print(b)[|b.scheme|] == ':'
    ensures Print(b)[..|b.scheme|] == b.scheme && Print(b)[|b.scheme| + 1..] == Tail(b)
    ensures Tail(b)[2..] == b.bucket + "/" + b.path
  {
  }

  lemma SchemeFound(s: string, k: nat)
    requires k < |s| && s[k] == ':' && ValidScheme(s[..k])
    ensures SchemeEnd(s, 0) == Some(k)
  {
    var valid := s[..k];
    assert forall i :: 0 <= i < k ==> valid[i] == s[i];
    assert Letter(s[0]);
    SchemeFoundFrom(s, 0, k);
  }

  lemma {:induction false} SchemeFoundFrom(s: string, from: nat, k: nat)
    requires from <= k < |s| && s[k] == ':' && k > 0 && Letter(s[0])
    requires forall i :: 0 <= i < k ==> SchemeChar(s[i])
    ensures SchemeEnd(s, from) == Some(k)
    decreases k - from
  {
    if from < k {
      SchemeFoundFrom(s, from + 1, k);
    }
  }

  lemma HostChars()
    ensures forall c :: HostChar(c) ==> c != '/' && c != '?' && c != '#' && c != '%' && c != '@' && !Control(c)
  {
  }

  lemma SchemeChars()
    ensures forall c :: SchemeChar(c) ==> c != '#' && c != ':' && !Control(c)
  {
  }

  lemma AuthorityRoundTrip(bucket: string)
    requires ValidBucket(bucket)
    ensures ParseAuthority(bucket) == Ok(bucket)
  {
    hide HostChar, UserChar;
    HostChars();
    FindLastNone(bucket, '@');
    UnescapeKeeps(InHost, bucket);
  }

  lemma RestRoundTrip(scheme: string, bucket: string, path: string)
    requires ValidBucket(bucket) && ValidPath(path)
    ensures ParseRest(scheme, bucket + "/" + path) == Ok(Url(scheme, bucket, "/" + path))
  {
    hide HostChar, ParseAuthority, PortOk, Unescape;
    HostChars();
    var rest := bucket + "/" + path;
    FindAt(rest, '/', |bucket|);
    assert rest[..|bucket|] == bucket && rest[|bucket|..] == "/" + path;
    AuthorityRoundTrip(bucket);
    assert Free("/" + path, '%');
    UnescapeKeeps(InPath, "/" + path);
  }

  lemma PrintedChars(b: BucketUrl)
    requires Valid(b)
    ensures forall i :: 0 <= i < |Print(b)| ==> Print(b)[i] != '#' && !Control(Print(b)[i])
    ensures forall i :: 0 <= i < |Tail(b)| ==> Tail(b)[i] != '?'
  {
    hide HostChar, SchemeChar, PortOk;
    HostChars();
    SchemeChars();
  }

  lemma ValidRoundTrips(b: BucketUrl)
    requires Valid(b)
    ensures Parse(Print(b)) == Ok(b)
  {
    hide HostChar, SchemeChar, PortOk, ParseRest, Unescape, SchemeEnd, Control;
    var raw, tail := Print(b), Tail(b);
    Shape(b);
    PrintedChars(b);
    FindAt(raw, '#', |raw|);
    FindAt(tail, '?', |tail|);
    assert Upto(raw, '#') == raw && Upto(tail, '?') == tail;
    SchemeFound(raw, |b.scheme|);
    RestRoundTrip(b.scheme, b.bucket, b.path);
  }

  lemma AuthorityKept(bucket: string)
    requires ParseAuthority(bucket) == Ok(bucket)
    ensures ValidBucket(bucket)
  {
    hide HostChar, UserChar, PortOk, Unescape;
    UnescapeKeeps(InHost, bucket);
  }

  lemma RestFacts(scheme: string, rest: string, u: Url)
    requires ParseRest(scheme, rest) == Ok(u)
    ensures var slash := Find(rest, '/');
            ParseAuthority(rest[..slash]) == Ok(u.host) && Unescape(InPath, rest[slash..]) == Ok(u.path)
            && |u.host| <= slash && |u.path| <= |rest| - slash
            && (slash < |rest| ==> u.path != "" && u.path[0] == '/')
  {
    hide ParseAuthority, Unescape;
    var slash := Find(rest, '/');
    if slash < |rest| {
      UnescapeHead(rest[slash..]);
    }
  }

  lemma UnescapeHead(s: string)
    requires s != "" && s[0] == '/' && Unescape(InPath, s).Ok?
    ensures var v := Unescape(InPath, s).value; v != "" && v[0] == '/'
  {
  }

  /** Of a prefix of the printed authority and path, only the whole can give back bucket and path: everything the
      parser drops or decodes makes the result shorter. */
  lemma RestKept(scheme: string, bucket: string, path: string, all: string, m: nat, u: Url)
    requires all == bucket + "/" + path && m <= |all|
    requires m < |all| ==> all[m] in {'#', '?'}
    requires ParseRest(scheme, all[..m]) == Ok(u) && u.host == bucket && TrimSlash(u.path) == path
    ensures m == |all| && ParseAuthority(bucket) == Ok(bucket) && Free(path, '%')
  {
    hide ParseAuthority, Unescape, ParseRest, Find, HostChar;
    var rest := all[..m];
    var slash := Find(rest, '/');
    RestFacts(scheme, rest, u);
    assert |all| == |bucket| + 1 + |path| && all[|bucket|] == '/';
    if slash == m {
      assert false;
    }
    assert |path| == |u.path| - 1;
    assert slash == |bucket| && m == |all|;
    assert rest == all && rest[..slash] == bucket && rest[slash..] == "/" + path;
    PathKept(path, u.path);
  }

  lemma PathKept(path: string, parsed: string)
    requires Unescape(InPath, "/" + path) == Ok(parsed) && |parsed| == |path| + 1
    ensures Free(path, '%')
  {
    hide Unescape, HostChar, Free;
    UnescapeKeeps(InPath, "/" + path);
    FreeTail(path);
  }

  lemma FreeTail(path: string)
    requires Free("/" + path, '%')
    ensures Free(path, '%')
  {
    var s := "/" + path;
    forall i | 0 <= i < |path| ensures path[i] != '%' {
      assert s[i + 1] == path[i];
    }
  }

  lemma HierScheme(scheme: string, rest: string)
    ensures ParseHier(scheme, rest).Ok? ==> ParseHier(scheme, rest).value.scheme == scheme
  {
    hide ParseAuthority, Unescape, Find;
  }

  lemma SchemeFacts(raw: string, u: Url)
    requires ParseUrl(raw) == Ok(u) && u.scheme != ""
    ensures var text := Upto(raw, '#');
            SchemeEnd(text, 0).Some?
            && var k := SchemeEnd(text, 0).value;
               k > 0 && u.scheme == Lower(text[..k]) && ParseHier(u.scheme, Upto(text[k + 1..], '?')) == Ok(u)
  {
    hide Unescape, ParseHier, Lower, Control, SchemeEnd;
    var text := Upto(raw, '#');
    HierScheme("", Upto(text, '?'));
    if SchemeEnd(text, 0).Some? {
      HierScheme(Lower(text[..SchemeEnd(text, 0).value]), Upto(text[SchemeEnd(text, 0).value + 1..], '?'));
    }
  }

  lemma MissingScheme(raw: string)
    requires raw != "" && raw[0] == ':'
    ensures ParseUrl(raw).Error?
  {
    hide Unescape, ParseHier;
    var text := Upto(raw, '#');
    assert text != "" && text[0] == ':';
    assert SchemeEnd(text, 0) == Some(0);
  }

  lemma SchemeKept(b: BucketUrl)
    requires Parse(Print(b)) == Ok(b)
    ensures ValidScheme(b.scheme)
    ensures var text := Upto(Print(b), '#');
            |b.scheme| < |text|
            && ParseHier(b.scheme, Upto(text[|b.scheme| + 1..], '?')) == ParseUrl(Print(b))
  {
    hide SchemeChar, ParseHier, ParseUrl, Find;
    var raw := Print(b);
    var text := Upto(raw, '#');
    Shape(b);
    if b.scheme == "" {
      MissingScheme(raw);
    }
    SchemeFacts(raw, ParseUrl(raw).value);
    var k := SchemeEnd(text, 0).value;
    assert text[..k] == raw[..k] == b.scheme;
  }

  lemma PathFree(b: BucketUrl)
    requires Find(Print(b), '#') == |Print(b)| && Find(Tail(b), '?') == |Tail(b)|
    requires forall i :: 0 <= i < |Print(b)| ==> !Control(Print(b)[i])
    ensures Free(b.path, '?') && Free(b.path, '#') && forall i :: 0 <= i < |b.path| ==> !Control(b.path[i])
  {
    hide Control;
    var raw, tail := Print(b), Tail(b);
    forall i | 0 <= i < |b.path| ensures b.path[i] != '#' && b.path[i] != '?' && !Control(b.path[i]) {
      assert raw[|raw| - |b.path| + i] == b.path[i];
      assert tail[|tail| - |b.path| + i] == b.path[i];
    }
  }

  /** What the fragment and the query cut off a printed URL behind its scheme. */
  lemma CutTail(b: BucketUrl)
    requires |b.scheme| < |Upto(Print(b), '#')|
    ensures var rest := Upto(Upto(Print(b), '#')[|b.scheme| + 1..], '?');
            2 <= |rest| <= |Tail(b)| && rest == Tail(b)[..|rest|]
            && (|rest| < |Tail(b)| ==> Tail(b)[|rest|] in {'#', '?'})
            && (|rest| == |Tail(b)| ==> Find(Print(b), '#') == |Print(b)| && Find(Tail(b), '?') == |Tail(b)|)
  {
    hide Find;
    var tail, n := Tail(b), |b.scheme|;
    var text := Upto(Print(b), '#');
    Shape(b);
    var rest := Upto(text[n + 1..], '?');
    var m := |rest|;
    assert text[n + 1..] == tail[..|text| - n - 1];
    assert rest == tail[..m];
    assert m < |tail| ==> tail[m] in {'#', '?'};
    assert tail[0] == '/' && tail[1] == '/' && |tail| >= 3;
    if m == |tail| {
      FindAt(tail, '?', m);
    }
  }

  lemma HierAuthority(scheme: string, rest: string)
    requires scheme != ""
    ensures ParseHier(scheme, "//" + rest) == ParseRest(scheme, rest)
  {
    hide ParseRest;
    assert ("//" + rest)[0] == '/' && ("//" + rest)[1] == '/' && ("//" + rest)[2..] == rest;
  }

  lemma NoControls(raw: string)
    requires ParseUrl(raw).Ok?
    ensures var text := Upto(raw, '#'); forall i :: 0 <= i < |text| ==> !Control(text[i])
  {
    hide ParseHier, Lower, Control, Upto, Unescape, SchemeEnd;
  }

  lemma NotEmpty(scheme: string)
    requires ValidScheme(scheme)
    ensures scheme != ""
  {
  }

  lemma OnlyValidRoundTrip(b: BucketUrl)
    requires Parse(Print(b)) == Ok(b)
    ensures Valid(b)
  {
    hide HostChar, SchemeChar, ParseRest, ParseHier, ParseUrl, Unescape, SchemeEnd, PortOk, Find, FindLast, Lower,
      Control, ValidBucket, ValidScheme;
    var raw, tail := Print(b), Tail(b);
    var text := Upto(raw, '#');
    Shape(b);
    SchemeKept(b);
    CutTail(b);
    var rest := Upto(text[|b.scheme| + 1..], '?');
    var all := b.bucket + "/" + b.path;
    var m := |rest| - 2;
    assert rest == "//" + all[..m];
    assert b.scheme != "" by { NotEmpty(b.scheme); }
    HierAuthority(b.scheme, all[..m]);
    RestKept(b.scheme, b.bucket, b.path, all, m, ParseUrl(raw).value);
    AuthorityKept(b.bucket);
    assert text == raw;
    NoControls(raw);
    PathFree(b);
  }

  /** Parsing undoes printing exactly for a lower-case scheme, a host of host characters with a well-formed port, and a
      path without '%', '?', '#' and control characters. Empty hosts and absolute paths are covered. */
  lemma RoundTrip(b: BucketUrl)
    ensures Parse(Print(b)) == Ok(b) <==> Valid(b)
  {
    if Parse(Print(b)) == Ok(b) {
      OnlyValidRoundTrip(b);
    }
    if Valid(b) {
      ValidRoundTrips(b);
    }
  }

  /******* Other spellings *******/

  /** The characters of a host, from the other side: everything above ASCII, and what is visible but for eleven. */
  lemma HostCharsAre(c: char)
    ensures HostChar(c) <==> c >= '\U{80}' || (' ' < c < '\U{7F}' && c !in "#%/?@\\^`{|}")
  {
  }

  /** The same for user information: what is visible in ASCII, but for fourteen characters. */
  lemma UserCharsAre(c: char)
    ensures UserChar(c) <==> ' ' < c < '\U{7F}' && c !in "\"#/<>?[\\]^`{|}"
  {
  }

  /** Escapes are two hexadecimal digits. In a host they may only stand for bytes above ASCII and the percent sign. */
  lemma EscapesAre(mode: Mode, hi: char, lo: char)
    ensures EscapeAllowed(mode, hi, lo)
            <==> IsHexDigit(hi) && IsHexDigit(lo)
                 && (mode == InHost ==> LowerChar(hi) in "89abcdef" || [hi, lo] == "25")
  {
    hide IsHexDigit;
    HexDigit(hi);
    HexDigit(lo);
    assert [hi, lo] == "25" <==> hi == '2' && lo == '5';
    assert HexValue(hi).Some? ==> (HexValue(hi).value >= 8 <==> LowerChar(hi) in "89abcdef");
  }

  /** Behind the last at sign is the host. What is before it must consist of user characters and sound escapes, and is
      dropped. */
  lemma AuthorityIs(user: string, host: string)
    requires '@' !in host
    ensures ParseAuthority(user + "@" + host).Ok?
            <==> ParseHost(host).Ok? && Unescape(InPath, user).Ok?
                 && forall i :: 0 <= i < |user| ==> UserChar(user[i])
    ensures ParseAuthority(user + "@" + host).Ok? ==> ParseAuthority(user + "@" + host) == ParseHost(host)
  {
    hide UserChar, FindLast, ParseHost, Unescape;
    LastSplits(user, '@', host);
    assert forall i :: 0 <= i < |user| ==> (user + "@" + host)[i] == user[i];
  }

  /** Behind the closing bracket of an address, a port may follow and nothing else. */
  lemma BracketedPort(inside: string, port: string)
    requires ']' !in port
    ensures PortOk("[" + inside + "]" + port)
            <==> port == "" || (port[0] == ':' && forall i :: 1 <= i < |port| ==> '0' <= port[i] <= '9')
  {
    hide FindLast;
    LastSplits("[" + inside, ']', port);
  }

  /** A port is digits only, and may be empty. */
  lemma PortIs(host: string, port: string)
    requires (host != "" ==> host[0] != '[') && ':' !in port
    ensures PortOk(host + ":" + port) <==> forall i :: 0 <= i < |port| ==> '0' <= port[i] <= '9'
  {
    hide FindLast;
    LastSplits(host, ':', port);
    assert (host + ":" + port)[|host|..] == ":" + port;
    assert forall i :: 0 <= i < |port| ==> (":" + port)[i + 1] == port[i];
  }

  /** Decoding goes character by character where nothing is escaped. */
  lemma {:induction false} UnescapeAfter(before: string, s: string)
    requires Free(before, '%')
    ensures Unescape(InPath, before + s) ==
            match Unescape(InPath, s)
            case Error(message) => Error(message)
            case Ok(value) => Ok(before + value)
  {
    if before == "" {
      assert before + s == s;
      if Unescape(InPath, s).Ok? {
        assert before + Unescape(InPath, s).value == Unescape(InPath, s).value;
      }
    } else {
      assert (before + s)[0] == before[0] && (before + s)[1..] == before[1..] + s;
      assert before[0] in before;
      UnescapeAfter(before[1..], s);
      if Unescape(InPath, s).Ok? {
        assert [before[0]] + (before[1..] + Unescape(InPath, s).value) == before + Unescape(InPath, s).value;
      }
    }
  }

  /** An escape of a byte is decoded to that byte, and a text before it without escapes is left as it is. */
  lemma EscapeDecodes(before: string, n: Byte, after: string)
    requires Free(before, '%')
    ensures Unescape(InPath, before + ("%" + HexEncode([n]) + after)) ==
            match Unescape(InPath, after)
            case Error(message) => Error(message)
            case Ok(value) => Ok(before + ([n as char] + value))
  {
    hide HexEncode, HexValue;
    var s := "%" + HexEncode([n]) + after;
    EscapedByte(n);
    assert s[0] == '%' && s[1] == HexEncode([n])[0] && s[2] == HexEncode([n])[1] && s[3..] == after;
    UnescapeAfter(before, s);
  }

  lemma EscapedByte(n: Byte)
    ensures var s := HexEncode([n]);
            |s| == 2 && HexValue(s[0]) == Some(n / 16) && HexValue(s[1]) == Some(n % 16)
  {
    assert [n][1..] == [];
  }

  lemma ParsedAs(raw: string, text: string, scheme: string, rest: string, u: Url)
    requires text == Upto(raw, '#') && forall i :: 0 <= i < |text| ==> !Control(text[i])
    requires |text| < |raw| ==> Unescape(InPath, raw[|text| + 1..]).Ok?
    requires SchemeEnd(text, 0) == Some(|scheme|) && scheme != "" && text[..|scheme|] == scheme
    requires Upto(text[|scheme| + 1..], '?') == rest
    requires ParseHier(Lower(scheme), rest) == Ok(u)
    ensures Parse(raw) == Ok(BucketUrl(u.scheme, u.host, TrimSlash(u.path)))
  {
    hide ParseHier, Lower, Control, Upto, Unescape, SchemeEnd, TrimSlash;
    assert |text| > 1;
    assert text != "*";
  }

  /** The scheme may be written in capitals. User information, query and fragment may be there, and are dropped. */
  lemma SpellingsParse(b: BucketUrl, scheme: string, user: string, query: string, fragment: string)
    requires Valid(b) && Lower(scheme) == b.scheme
    requires user == "" || (user[|user| - 1] == '@' && forall i :: 0 <= i < |user| - 1 ==> UserOnly(user[i]))
    requires query == "" || (query[0] == '?' && forall i :: 0 <= i < |query| ==> query[i] != '#' && !Control(query[i]))
    requires fragment == "" || (fragment[0] == '#' && '%' !in fragment)
    ensures Parse(scheme + "://" + user + b.bucket + "/" + b.path + query + fragment) == Ok(b)
  {
    hide HostChar, SchemeChar, PortOk, ParseRest, Unescape, SchemeEnd, Control, Find, ValidBucket, ValidPath, UserChar,
      Lower, Free, ParseHier, ParseUrl;
    var rest := user + b.bucket + "/" + b.path;
    var head := "//" + rest + query;
    var text, raw := scheme + ":" + head, scheme + "://" + user + b.bucket + "/" + b.path + query + fragment;
    assert raw == text + fragment;
    SpelledChars(scheme);
    SpelledScheme(scheme, head);
    SpelledText(b, scheme, user, query);
    FragmentDropped(text, fragment);
    QueryDropped(b, user, query);
    SpelledRest(b, user);
    HierAuthority(b.scheme, rest);
    ParsedAs(raw, text, scheme, "//" + rest, Url(b.scheme, b.bucket, "/" + b.path));
  }

  /** What user information may contain, but for its own escapes. */
  predicate UserOnly(c: char) {
    UserChar(c) && c != '%'
  }

  lemma LowerKeeps(c: char)
    ensures Letter(LowerChar(c)) <==> Letter(c)
    ensures SchemeChar(LowerChar(c)) <==> SchemeChar(c)
  {
  }

  lemma SpelledChars(scheme: string)
    requires ValidScheme(Lower(scheme))
    ensures scheme != "" && Letter(scheme[0]) && forall i :: 0 <= i < |scheme| ==> SchemeChar(scheme[i])
  {
    hide Lower, SchemeChar, Letter, LowerChar;
    forall i | 0 <= i < |scheme| ensures SchemeChar(scheme[i]) {
      LowerKeeps(scheme[i]);
      assert SchemeChar(Lower(scheme)[i]);
    }
    LowerKeeps(scheme[0]);
  }

  lemma SpelledScheme(scheme: string, head: string)
    requires scheme != "" && Letter(scheme[0]) && forall i :: 0 <= i < |scheme| ==> SchemeChar(scheme[i])
    ensures var text := scheme + ":" + head;
            SchemeEnd(text, 0) == Some(|scheme|) && text[..|scheme|] == scheme && text[|scheme| + 1..] == head
  {
    hide SchemeChar, Letter, SchemeEnd;
    var text := scheme + ":" + head;
    assert text[0] == scheme[0];
    assert forall i :: 0 <= i < |scheme| ==> text[i] == scheme[i];
    SchemeFoundFrom(text, 0, |scheme|);
  }

  lemma SpelledText(b: BucketUrl, scheme: string, user: string, query: string)
    requires Valid(b) && forall i :: 0 <= i < |scheme| ==> SchemeChar(scheme[i])
    requires user == "" || (user[|user| - 1] == '@' && forall i :: 0 <= i < |user| - 1 ==> UserOnly(user[i]))
    requires query == "" || (query[0] == '?' && forall i :: 0 <= i < |query| ==> query[i] != '#' && !Control(query[i]))
    ensures var text := scheme + ":" + ("//" + (user + b.bucket + "/" + b.path) + query);
            forall i :: 0 <= i < |text| ==> text[i] != '#' && !Control(text[i])
  {
    hide HostChar, SchemeChar, PortOk, UserChar;
    HostChars();
    SchemeChars();
    UserChars();
  }

  lemma UserChars()
    ensures forall c :: UserChar(c) ==> c != '/' && c != '?' && c != '#' && !Control(c)
  {
  }

  lemma FragmentDropped(text: string, fragment: string)
    requires forall i :: 0 <= i < |text| ==> text[i] != '#'
    requires fragment == "" || (fragment[0] == '#' && '%' !in fragment)
    ensures Upto(text + fragment, '#') == text
    ensures fragment != "" ==> Unescape(InPath, (text + fragment)[|text| + 1..]).Ok?
  {
    var raw := text + fragment;
    FindAt(raw, '#', |text|);
    if fragment != "" {
      assert raw[|text| + 1..] == fragment[1..];
      UnescapeKeeps(InPath, fragment[1..]);
    }
  }

  lemma QueryDropped(b: BucketUrl, user: string, query: string)
    requires Valid(b)
    requires user == "" || (user[|user| - 1] == '@' && forall i :: 0 <= i < |user| - 1 ==> UserOnly(user[i]))
    requires query == "" || query[0] == '?'
    ensures Upto("//" + (user + b.bucket + "/" + b.path) + query, '?') == "//" + (user + b.bucket + "/" + b.path)
  {
    hide HostChar, SchemeChar, PortOk, UserChar, Find;
    HostChars();
    UserChars();
    var head := "//" + (user + b.bucket + "/" + b.path);
    assert forall i :: 0 <= i < |head| ==> head[i] != '?';
    FindAt(head + query, '?', |head|);
  }

  lemma SpelledRest(b: BucketUrl, user: string)
    requires Valid(b)
    requires user == "" || (user[|user| - 1] == '@' && forall i :: 0 <= i < |user| - 1 ==> UserOnly(user[i]))
    ensures ParseRest(b.scheme, user + b.bucket + "/" + b.path) == Ok(Url(b.scheme, b.bucket, "/" + b.path))
  {
    hide HostChar, ParseAuthority, PortOk, Unescape, UserChar, Find;
    HostChars();
    UserChars();
    var authority := user + b.bucket;
    var rest := authority + "/" + b.path;
    FindAt(rest, '/', |authority|);
    assert rest[..|authority|] == authority && rest[|authority|..] == "/" + b.path;
    UserDropped(b.bucket, user);
    assert Free("/" + b.path, '%');
    UnescapeKeeps(InPath, "/" + b.path);
  }

  lemma UserDropped(bucket: string, user: string)
    requires ValidBucket(bucket)
    requires user == "" || (user[|user| - 1] == '@' && forall i :: 0 <= i < |user| - 1 ==> UserOnly(user[i]))
    ensures ParseAuthority(user + bucket) == Ok(bucket)
  {
    hide HostChar, UserChar, FindLast, PortOk, Unescape;
    AuthorityRoundTrip(bucket);
    FindLastNone(bucket, '@');
    if user == "" {
      assert user + bucket == bucket;
    } else {
      var at := |user| - 1;
      HostChars();
      assert user[..at] + "@" + bucket == user + bucket;
      LastSplits(user[..at], '@', bucket);
      UnescapeKeeps(InPath, user[..at]);
    }
  }

  lemma PlainText(text: string)
    requires ValidPath(text)
    ensures Upto(text, '#') == text && Upto(text, '?') == text && Unescape(InPath, text) == Ok(text)
  {
    hide Control;
    FindAt(text, '#', |text|);
    FindAt(text, '?', |text|);
    UnescapeKeeps(InPath, text);
  }

  /** Without a scheme, which a text that starts with no letter cannot have, all is path, unless the first segment has a
      colon: that is an error. */
  lemma SchemelessParse(text: string)
    requires text != "" && !Letter(text[0]) && ValidPath(text) && text[0] != '/'
    ensures Parse(text).Ok? <==> ':' !in Upto(text, '/')
    ensures Parse(text).Ok? ==> Parse(text).value == BucketUrl("", "", text)
  {
    hide Unescape, ParseRest, Control, Find, ValidPath, SchemeChar;
    PlainText(text);
    assert !(exists i :: 0 <= i < |text| && Control(text[i])) by { NoControl(text); }
    if text[0] == ':' {
      FirstSegment(text);
    } else if text == "*" {
      FirstSegment(text);
    }
  }

  /** A text that starts with one slash, or with three, is all path too. */
  lemma SlashesParse(text: string)
    requires ValidPath(text) && text != "" && text[0] == '/'
    requires |text| >= 2 && text[1] == '/' ==> |text| >= 3 && text[2] == '/'
    ensures Parse(text) == Ok(BucketUrl("", "", text[1..]))
  {
    hide Unescape, ParseRest, Control, Find, ValidPath, SchemeChar;
    PlainText(text);
    assert !(exists i :: 0 <= i < |text| && Control(text[i])) by { NoControl(text); }
    assert !SchemeChar('/') by { SlashEndsScheme(); }
  }

  lemma SlashEndsScheme()
    ensures !SchemeChar('/')
  {
  }

  /** An unsound escape in a fragment is an error, although the fragment is dropped. */
  lemma FragmentRefused(text: string, fragment: string)
    requires '#' !in text && Unescape(InPath, fragment).Error?
    ensures Parse(text + "#" + fragment).Error?
  {
    hide Unescape, ParseHier, Control, Find, SchemeEnd, Lower;
    var raw := text + "#" + fragment;
    FindAt(raw, '#', |text|);
    assert raw[..|text|] == text && raw[|text| + 1..] == fragment;
  }

  lemma NoControl(text: string)
    requires ValidPath(text)
    ensures forall i :: 0 <= i < |text| ==> !Control(text[i])
  {
  }

  lemma FirstSegment(text: string)
    requires text != "" && text[0] != '/'
    ensures text[0] == ':' ==> ':' in Upto(text, '/')
    ensures text == "*" ==> ':' !in Upto(text, '/')
  {
    var k := Find(text, '/');
    assert text[..k][0] == text[0];
  }

  /** With a scheme but without an authority there is no bucket: one slash starts a path, and anything else is
      dropped. */
  lemma NoAuthorityParse(scheme: string, rest: string)
    requires ValidScheme(scheme) && ValidPath(rest) && !(|rest| >= 2 && rest[0] == '/' && rest[1] == '/')
    ensures Parse(scheme + ":" + rest) ==
            Ok(BucketUrl(scheme, "", if rest != "" && rest[0] == '/' then rest[1..] else ""))
  {
    hide Unescape, ParseRest, Control, Find, SchemeEnd, SchemeChar, ValidPath;
    var text := scheme + ":" + rest;
    SchemeText(scheme, rest);
    PlainText(rest);
    assert text[..|scheme|] == scheme && text[|scheme| + 1..] == rest;
    SchemeFound(text, |scheme|);
  }

  lemma SchemeText(scheme: string, rest: string)
    requires ValidScheme(scheme) && ValidPath(rest)
    ensures var text := scheme + ":" + rest;
            Upto(text, '#') == text && forall i :: 0 <= i < |text| ==> !Control(text[i])
  {
    hide SchemeChar;
    SchemeChars();
    var text := scheme + ":" + rest;
    FindAt(text, '#', |text|);
  }

  const KIND_DEFAULT := BucketUrl("tar", "", "/bucket")

  lemma TarRoundTrip(path: string)
    requires forall i :: 0 <= i < |path| ==> Letter(path[i]) || path[i] == '/'
    ensures Print(BucketUrl("tar", "", path)) == "tar:///" + path
    ensures Parse("tar:///" + path) == Ok(BucketUrl("tar", "", path))
  {
    hide Parse, Valid, Letter;
    TarIsValid(path);
    RoundTrip(BucketUrl("tar", "", path));
    assert Print(BucketUrl("tar", "", path)) == "tar:///" + path;
  }

  /** The default bucket of a local cluster survives because its absolute path is printed with four slashes; the three
      slashes of the comment beside it would parse to a relative path. */
  lemma KindDefault()
    ensures Print(KIND_DEFAULT) == "tar:////bucket" && Parse("tar:////bucket") == Ok(KIND_DEFAULT)
    ensures Parse("tar:///bucket") == Ok(BucketUrl("tar", "", "bucket"))
  {
    hide Parse, Print;
    TarRoundTrip("/bucket");
    TarRoundTrip("bucket");
    assert "tar:///" + "/bucket" == "tar:////bucket";
    assert "tar:///" + "bucket" == "tar:///bucket";
  }

  lemma TarIsValid(path: string)
    requires forall i :: 0 <= i < |path| ==> Letter(path[i]) || path[i] == '/'
    ensures Valid(BucketUrl("tar", "", path))
  {
    hide HostChar;
    assert ValidPath(path) by {
      assert forall i :: 0 <= i < |path| ==> path[i] != '%' && path[i] != '?' && path[i] != '#' && !Control(path[i]);
    }
    assert ValidBucket("") by {
      assert FindLast("", ':') == -1;
    }
    TarScheme();
  }

  lemma TarScheme()
    ensures ValidScheme("tar")
  {
    assert forall i :: 0 <= i < 3 ==> Letter("tar"[i]);
    assert Lower("tar") == "tar";
  }

  /******* Reading a URL from the environment *******/

  class Setting {
    var scheme: string
    var bucket: string
    var path: string

    ghost function Value(): BucketUrl
      reads this
    {
      BucketUrl(scheme, bucket, path)
    }

    constructor (b: BucketUrl)
      ensures Value() == b
    {
      scheme, bucket, path := b.scheme, b.bucket, b.path;
    }

    /** Empty text leaves the receiver alone, and so does text that does not parse. */
    method UnmarshalText(text: string) returns (ok: bool)
      modifies this
      ensures ok <==> text == "" || Parse(text).Ok?
      ensures Value() == if text != "" && ok then Parse(text).value else old(Value())
    {
      if text == "" {
        return true;
      }
      var parsed := Parse(text);
      if parsed.Error? {
        return false;
      }
      scheme := parsed.value.scheme;
      bucket := parsed.value.bucket;
      path := parsed.value.path;
      return true;
    }
  }
}
