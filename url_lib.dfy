/** The parts of Python's `urllib.parse` that the scraper calls:
    `quote_plus`, `unquote`, `urlsplit`/`urlparse`, `urljoin` and the
    first value of a `parse_qs` key.  Percent-encoding follows section 2.1
    of RFC 3986; the characters left unencoded are the unreserved set of
    section 2.3 of RFC 3986. */
module UrlLib {
  import opened Wrappers
  import opened Text
  import Utf8

  type byte = Utf8.byte

  // ---------------------------------------------------------------- quote

  /** ALPHA / DIGIT / "-" / "." / "_" / "~" (section 2.3 of RFC 3986). */
  predicate IsUnreservedByte(x: int) {
    || 'A' as int <= x <= 'Z' as int
    || 'a' as int <= x <= 'z' as int
    || '0' as int <= x <= '9' as int
    || x == '-' as int || x == '.' as int || x == '_' as int || x == '~' as int
  }

  predicate IsUnreserved(c: char) { IsUnreservedByte(c as int) }

  function HexUpper(d: int): (c: char)
    requires 0 <= d < 16
  {
    "0123456789ABCDEF"[d]
  }

  predicate IsHexDigit(c: char) {
    '0' <= c <= '9' || 'a' <= c <= 'f' || 'A' <= c <= 'F'
  }

  function HexValue(c: char): (d: int)
    requires IsHexDigit(c)
    ensures 0 <= d < 16
  {
    if '0' <= c <= '9' then c as int - '0' as int
    else if 'a' <= c <= 'f' then c as int - 'a' as int + 10
    else c as int - 'A' as int + 10
  }

  /** How `quote_plus` writes one octet. */
  function QuoteByte(x: byte): string {
    if IsUnreservedByte(x) then [x as char]
    else if x == 0x20 then "+"
    else ['%', HexUpper(x / 16), HexUpper(x % 16)]
  }

  function QuoteBytes(b: seq<byte>): string {
    if b == [] then "" else QuoteByte(b[0]) + QuoteBytes(b[1..])
  }

  /** `urllib.parse.quote_plus(s)` with its defaults (safe='', UTF-8). */
  function QuotePlus(s: string): string {
    QuoteBytes(Utf8.Encode(s))
  }

  /** The characters `quote_plus` can produce. */
  predicate IsQuotedChar(c: char) { IsUnreserved(c) || c == '+' || c == '%' }

  lemma {:induction false} QuoteBytesChars(b: seq<byte>)
    ensures forall i :: 0 <= i < |QuoteBytes(b)| ==> IsQuotedChar(QuoteBytes(b)[i])
  {
    if b != [] {
      QuoteBytesChars(b[1..]);
      var h, t := QuoteByte(b[0]), QuoteBytes(b[1..]);
      assert QuoteBytes(b) == h + t;
      assert forall i :: 0 <= i < |h| ==> IsQuotedChar(h[i]);
      assert forall i :: |h| <= i < |h + t| ==> (h + t)[i] == t[i - |h|];
    }
  }

  lemma AbsentChar(s: string, c: char)
    requires forall i :: 0 <= i < |s| ==> s[i] != c
    ensures !Contains(s, [c])
  {
    forall i | 0 <= i <= |s| ensures !StartsWith(s[i..], [c]) {
      if i < |s| { assert s[i..][0] == s[i]; }
    }
  }

  /** `quote_plus` output holds only unreserved characters, '+' and '%',
      so it never contains the '&', '=', '#', '?' or space that would break
      the query string it is spliced into. */
  lemma QuotePlusIsQueryValue(s: string)
    ensures forall i :: 0 <= i < |QuotePlus(s)| ==> IsQuotedChar(QuotePlus(s)[i])
    ensures !Contains(QuotePlus(s), "&") && !Contains(QuotePlus(s), "#")
    ensures !Contains(QuotePlus(s), "=") && !Contains(QuotePlus(s), "?")
    ensures !Contains(QuotePlus(s), " ")
  {
    var q := QuotePlus(s);
    QuoteBytesChars(Utf8.Encode(s));
    AbsentChar(q, '&');
    AbsentChar(q, '#');
    AbsentChar(q, '=');
    AbsentChar(q, '?');
    AbsentChar(q, ' ');
  }

  // -------------------------------------------------------------- unquote

  predicate IsAscii(c: char) { c as int < 0x80 }

  /** `unquote_to_bytes` on a run of ASCII text: "%" and two hex digits
      give one octet, every other character stands for itself. */
  function UnquoteToBytes(s: string): (r: seq<byte>)
    requires forall i :: 0 <= i < |s| ==> IsAscii(s[i])
  {
    if s == [] then []
    else if s[0] == '%' && |s| >= 3 && IsHexDigit(s[1]) && IsHexDigit(s[2]) then
      [16 * HexValue(s[1]) + HexValue(s[2])] + UnquoteToBytes(s[3..])
    else
      assert IsAscii(s[0]);
      var x: byte := s[0] as int;
      [x] + UnquoteToBytes(s[1..])
  }

  /** Length of the longest all-ASCII prefix. */
  function AsciiRun(s: string): (n: nat)
    ensures n <= |s|
    ensures forall i :: 0 <= i < n ==> IsAscii(s[i])
    ensures n < |s| ==> !IsAscii(s[n])
  {
    if s == [] || !IsAscii(s[0]) then 0 else 1 + AsciiRun(s[1..])
  }

  /** The body of `unquote`: ASCII runs are percent-decoded to octets and
      decoded as UTF-8 with 'replace'; other characters are copied. */
  function UnquoteRuns(s: string): string
    decreases |s|
  {
    if s == [] then ""
    else if !IsAscii(s[0]) then [s[0]] + UnquoteRuns(s[1..])
    else
      var n := AsciiRun(s);
      Utf8.DecodeReplace(UnquoteToBytes(s[..n])) + UnquoteRuns(s[n..])
  }

  /** `urllib.parse.unquote(s)`. */
  function Unquote(s: string): string {
    if !Contains(s, "%") then s else UnquoteRuns(s)
  }

  /** How `parse_qs` decodes a name or a value: '+' to space, then unquote. */
  function UnquotePlus(s: string): string {
    Unquote(ReplaceChar(s, '+', ' '))
  }

  lemma QuoteByteAscii(x: byte)
    ensures forall i :: 0 <= i < |QuoteByte(x)| ==> IsAscii(QuoteByte(x)[i])
  {
  }

  lemma {:induction false} QuoteBytesAscii(b: seq<byte>)
    ensures forall i :: 0 <= i < |QuoteBytes(b)| ==> IsAscii(QuoteBytes(b)[i])
  {
    if b != [] {
      QuoteByteAscii(b[0]);
      QuoteBytesAscii(b[1..]);
      var h, t := QuoteByte(b[0]), QuoteBytes(b[1..]);
      assert forall i :: |h| <= i < |h + t| ==> (h + t)[i] == t[i - |h|];
    }
  }

  lemma ReplaceConcat(a: string, b: string, x: char, y: char)
    ensures ReplaceChar(a + b, x, y) == ReplaceChar(a, x, y) + ReplaceChar(b, x, y)
  {
    assert forall i :: 0 <= i < |a + b| ==>
      ReplaceChar(a + b, x, y)[i] == (ReplaceChar(a, x, y) + ReplaceChar(b, x, y))[i];
  }

  lemma HexRoundTrip(x: byte)
    ensures IsHexDigit(HexUpper(x / 16)) && IsHexDigit(HexUpper(x % 16))
    ensures 16 * HexValue(HexUpper(x / 16)) + HexValue(HexUpper(x % 16)) == x
  {
    var hi, lo := x / 16, x % 16;
    assert HexValue(HexUpper(hi)) == hi;
    assert HexValue(HexUpper(lo)) == lo;
  }

  /** One quoted octet, with '+' read back as a space, decodes to that
      octet ahead of whatever follows it. */
  lemma UnquoteOneByte(x: byte, t: string)
    requires forall i :: 0 <= i < |t| ==> IsAscii(t[i])
    ensures forall i :: 0 <= i < |ReplaceChar(QuoteByte(x), '+', ' ') + t| ==>
      IsAscii((ReplaceChar(QuoteByte(x), '+', ' ') + t)[i])
    ensures UnquoteToBytes(ReplaceChar(QuoteByte(x), '+', ' ') + t) == [x] + UnquoteToBytes(t)
  {
    QuoteByteAscii(x);
    var h := ReplaceChar(QuoteByte(x), '+', ' ');
    if IsUnreservedByte(x) {
      assert h == [x as char];
      assert (h + t)[1..] == t;
    } else if x == 0x20 {
      assert h == " ";
      assert (h + t)[1..] == t;
    } else {
      HexRoundTrip(x);
      assert (h + t)[3..] == t;
    }
  }

  lemma {:induction false} UnquoteQuotedBytes(b: seq<byte>)
    ensures forall i :: 0 <= i < |ReplaceChar(QuoteBytes(b), '+', ' ')| ==>
      IsAscii(ReplaceChar(QuoteBytes(b), '+', ' ')[i])
    ensures UnquoteToBytes(ReplaceChar(QuoteBytes(b), '+', ' ')) == b
  {
    QuoteBytesAscii(b);
    if b != [] {
      var x := b[0];
      var h, t := QuoteByte(x), QuoteBytes(b[1..]);
      ReplaceConcat(h, t, '+', ' ');
      UnquoteQuotedBytes(b[1..]);
      UnquoteOneByte(x, ReplaceChar(t, '+', ' '));
      assert b == [x] + b[1..];
    }
  }

  lemma {:induction false} UnquoteToBytesPlain(s: string)
    requires forall i :: 0 <= i < |s| ==> IsAscii(s[i]) && s[i] != '%'
    ensures |UnquoteToBytes(s)| == |s|
    ensures forall i :: 0 <= i < |s| ==> UnquoteToBytes(s)[i] == s[i] as int
  {
    if s != [] {
      UnquoteToBytesPlain(s[1..]);
    }
  }

  /** A keyword encoded by `quote_plus` comes back unchanged from the
      decoding `parse_qs` applies to query values. */
  lemma QuotePlusRoundTrip(s: string)
    ensures UnquotePlus(QuotePlus(s)) == s
  {
    var b := Utf8.Encode(s);
    var t := ReplaceChar(QuoteBytes(b), '+', ' ');
    UnquoteQuotedBytes(b);
    Utf8.DecodeEncode(s);
    assert Utf8.DecodeReplace(UnquoteToBytes(t)) == s;
    if t == [] {
    } else {
      assert AsciiRun(t) == |t|;
      assert t[..|t|] == t && t[|t|..] == [];
      assert UnquoteRuns(t) == s;
      if !Contains(t, "%") {
        forall i | 0 <= i < |t| ensures t[i] != '%' {
          if t[i] == '%' { ContainsAt(t, "%", i); }
        }
        UnquoteToBytesPlain(t);
        Utf8.DecodeReplaceAscii(UnquoteToBytes(t));
        assert t == s;
      }
    }
  }

  // --------------------------------------------------------- urlsplit

  datatype SplitResult = SplitResult(scheme: string, netloc: string, path: string, query: string, fragment: string)

  datatype ParseResult = ParseResult(scheme: string, netloc: string, path: string, params: string, query: string, fragment: string)

  predicate IsAsciiAlpha(c: char) { 'a' <= c <= 'z' || 'A' <= c <= 'Z' }

  predicate IsSchemeChar(c: char) {
    IsAsciiAlpha(c) || '0' <= c <= '9' || c == '+' || c == '-' || c == '.'
  }

  /** The WHATWG "C0 control or space" set that `urlsplit` strips on the left. */
  predicate IsC0OrSpace(c: char) { c as int <= 0x20 }

  /** `s` without its leading C0 controls and spaces, pinned by
      LStripC0Removes. */
  function LStripC0(s: string): (r: string)
    ensures r != [] ==> !IsC0OrSpace(r[0])
  {
    if s != [] && IsC0OrSpace(s[0]) then LStripC0(s[1..]) else s
  }

  /** LStripC0 leaves a suffix of `s`, and every character it removes is
      a C0 control or a space. */
  lemma {:induction false} LStripC0Removes(s: string)
    ensures |LStripC0(s)| <= |s| && LStripC0(s) == s[|s| - |LStripC0(s)|..]
    ensures forall i :: 0 <= i < |s| - |LStripC0(s)| ==> IsC0OrSpace(s[i])
    decreases |s|
  {
    if s != [] && IsC0OrSpace(s[0]) {
      LStripC0Removes(s[1..]);
    }
  }

  /** `urlsplit` deletes tab, CR and LF wherever they appear. */
  function RemoveUnsafe(s: string): string {
    RemoveChar(RemoveChar(RemoveChar(s, '\t'), '\r'), '\n')
  }

  /** Index of the first character of `s` in `cs`, or |s| when there is none. */
  function FirstOf(s: string, cs: set<char>): (n: nat)
    ensures n <= |s|
    ensures forall i :: 0 <= i < n ==> s[i] !in cs
    ensures n < |s| ==> s[n] in cs
  {
    if s == [] || s[0] in cs then 0 else 1 + FirstOf(s[1..], cs)
  }

  /** Splits `s` at the first `c`: the text before it and, when there is
      one, the text after it. */
  function SplitAt(s: string, c: char): (string, Option<string>) {
    var n := FirstOf(s, {c});
    if n < |s| then (s[..n], Some(s[n + 1..])) else (s, None)
  }

  function SchemeSplit(u: string, default: string): (string, string) {
    var i := FirstOf(u, {':'});
    if 0 < i < |u| && IsAsciiAlpha(u[0]) && forall k :: 0 <= k < i ==> IsSchemeChar(u[k]) then
      (Lower(u[..i]), u[i + 1..])
    else (default, u)
  }

  /** `urllib.parse.urlsplit(url, scheme=default)`. */
  function UrlSplit(url: string, default: string): SplitResult {
    var u := RemoveUnsafe(LStripC0(url));
    var (scheme, rest) := SchemeSplit(u, default);
    var (netloc, rest2) :=
      if StartsWith(rest, "//") then
        var n := FirstOf(rest[2..], {'/', '?', '#'});
        (rest[2..][..n], rest[2..][n..])
      else ("", rest);
    var (rest3, fragment) := SplitAt(rest2, '#');
    var (path, query) := SplitAt(rest3, '?');
    SplitResult(scheme, netloc, path, query.GetOr(""), fragment.GetOr(""))
  }

  const UsesRelative: set<string> := {"", "ftp", "http", "gopher", "nntp", "imap", "wais", "file", "https",
    "shttp", "mms", "prospero", "rtsp", "rtsps", "rtspu", "sftp", "svn", "svn+ssh", "ws", "wss"}

  const UsesNetloc: set<string> := {"", "ftp", "http", "gopher", "nntp", "telnet", "imap", "wais", "file",
    "mms", "https", "shttp", "snews", "prospero", "rtsp", "rtsps", "rtspu", "rsync", "svn", "svn+ssh",
    "sftp", "nfs", "git", "git+ssh", "ws", "wss", "itms-services"}

  const UsesParams: set<string> := {"", "ftp", "hdl", "prospero", "http", "imap", "https", "shttp",
    "rtsp", "rtsps", "rtspu", "sip", "sips", "mms", "sftp", "tel"}

  /** Index of the last `c` in `s`, or None when `c` does not occur. */
  function LastOf(s: string, c: char): (r: Option<nat>)
    ensures r.Some? ==> r.value < |s| && s[r.value] == c
    ensures r.Some? ==> forall j :: r.value < j < |s| ==> s[j] != c
    ensures r.None? ==> forall j :: 0 <= j < |s| ==> s[j] != c
  {
    if s == [] then None
    else if s[|s| - 1] == c then Some(|s| - 1)
    else LastOf(s[..|s| - 1], c)
  }

  /** `_splitparams`: the parameters start at the first ';' of the last
      path segment (of the whole path when it has no '/'). */
  function SplitParams(path: string): (string, string) {
    match LastOf(path, '/')
    case Some(j) =>
      var n := FirstOf(path[j..], {';'});
      if j + n < |path| then (path[..j + n], path[j + n + 1..]) else (path, "")
    case None =>
      var n := FirstOf(path, {';'});
      if n < |path| then (path[..n], path[n + 1..]) else (path, "")
  }

  /** `urllib.parse.urlparse(url, scheme=default)`. */
  function UrlParse(url: string, default: string): ParseResult {
    WithParams(UrlSplit(url, default))
  }

  /** The `urlparse` components of a `urlsplit` result: for a scheme that
      uses them, the params split off the last path segment. */
  function WithParams(s: SplitResult): ParseResult {
    var (path, params) :=
      if s.scheme in UsesParams && FirstOf(s.path, {';'}) < |s.path| then SplitParams(s.path)
      else (s.path, "");
    ParseResult(s.scheme, s.netloc, path, params, s.query, s.fragment)
  }

  /** `urlunsplit`. */
  function UrlUnsplit(scheme: string, netloc: string, path: string, query: string, fragment: string): string {
    var u :=
      if netloc != "" || (scheme != "" && scheme in UsesNetloc && !StartsWith(path, "//")) then
        "//" + netloc + (if path != "" && path[0] != '/' then "/" + path else path)
      else path;
    var u1 := if scheme != "" then scheme + ":" + u else u;
    var u2 := if query != "" then u1 + "?" + query else u1;
    if fragment != "" then u2 + "#" + fragment else u2
  }

  /** `urlunparse`. */
  function UrlUnparse(p: ParseResult): string {
    UrlUnsplit(p.scheme, p.netloc, if p.params != "" then p.path + ";" + p.params else p.path, p.query, p.fragment)
  }

  /** The dot-segment loop of `urljoin`. */
  function ResolveDots(segments: seq<string>, acc: seq<string>): seq<string>
    decreases |segments|
  {
    if segments == [] then acc
    else if segments[0] == ".." then ResolveDots(segments[1..], if acc == [] then [] else acc[..|acc| - 1])
    else if segments[0] == "." then ResolveDots(segments[1..], acc)
    else ResolveDots(segments[1..], acc + [segments[0]])
  }

  /** The non-empty segments of `ss`, pinned by NonEmptyKeeps and
      NonEmptyAppend. */
  function NonEmpty(ss: seq<string>): (r: seq<string>)
    ensures forall i :: 0 <= i < |r| ==> r[i] != ""
  {
    if ss == [] then [] else (if ss[0] == "" then [] else [ss[0]]) + NonEmpty(ss[1..])
  }

  /** Every non-empty segment is kept, as often as it occurs. */
  lemma {:induction false} NonEmptyKeeps(ss: seq<string>)
    ensures multiset(NonEmpty(ss)) == multiset(ss)["" := 0]
    decreases |ss|
  {
    if ss != [] {
      assert ss == [ss[0]] + ss[1..];
      NonEmptyKeeps(ss[1..]);
    }
  }

  /** Dropping the empty segments of a concatenation drops them from each
      part, so the segments kept stay in their order. */
  lemma {:induction false} NonEmptyAppend(a: seq<string>, b: seq<string>)
    ensures NonEmpty(a + b) == NonEmpty(a) + NonEmpty(b)
    decreases |a|
  {
    if a != [] {
      assert (a + b)[0] == a[0] && (a + b)[1..] == a[1..] + b;
      NonEmptyAppend(a[1..], b);
    } else {
      assert a + b == b;
    }
  }

  /** `urllib.parse.urljoin(base, url)`. */
  function UrlJoin(base: string, url: string): string {
    if base == "" then url
    else if url == "" then base
    else
      var b := UrlParse(base, "");
      var u := UrlParse(url, b.scheme);
      if u.scheme != b.scheme || u.scheme !in UsesRelative then url
      else UrlUnparse(JoinParts(b, u))
  }

  /** The components `urljoin` reassembles once both parts share a scheme
      that allows relative references: a reference with its own host
      replaces everything, otherwise the base host is kept and the paths
      are merged with the dot segments resolved. */
  function JoinParts(b: ParseResult, u: ParseResult): (r: ParseResult)
    ensures r.scheme == u.scheme
    ensures u.scheme in UsesNetloc ==> r.netloc == if u.netloc != "" then u.netloc else b.netloc
  {
    if u.scheme in UsesNetloc && u.netloc != "" then u
    else
      var netloc := if u.scheme in UsesNetloc then b.netloc else u.netloc;
      if u.path == "" && u.params == "" then
        ParseResult(u.scheme, netloc, b.path, b.params, if u.query != "" then u.query else b.query, u.fragment)
      else
        var baseParts0 := Split(b.path, "/");
        var baseParts := if baseParts0[|baseParts0| - 1] != "" then baseParts0[..|baseParts0| - 1] else baseParts0;
        var segments :=
          if StartsWith(u.path, "/") then Split(u.path, "/")
          else
            var all := baseParts + Split(u.path, "/");
            if |all| <= 2 then all else [all[0]] + NonEmpty(all[1..|all| - 1]) + [all[|all| - 1]];
        var resolved0 := ResolveDots(segments, []);
        var resolved := if segments[|segments| - 1] in {".", ".."} then resolved0 + [""] else resolved0;
        var joined := Join(resolved, "/");
        ParseResult(u.scheme, netloc, if joined == "" then "/" else joined, u.params, u.query, u.fragment)
  }

  // --------------------------------------------------------- parse_qs

  /** `parse_qsl(qs)` with its defaults: '&'-separated fields, fields
      without '=' or with an empty value dropped, both sides decoded. */
  function ParseQsl(qs: string): seq<(string, string)> {
    FieldsToPairs(Split(qs, "&"))
  }

  function FieldsToPairs(fields: seq<string>): seq<(string, string)> {
    if fields == [] then []
    else
      var (name, value) := SplitAt(fields[0], '=');
      var here := if value.Some? && value.value != "" then [(UnquotePlus(name), UnquotePlus(value.value))] else [];
      here + FieldsToPairs(fields[1..])
  }

  /** Position `i` holds the first pair named `key`. */
  predicate FirstKeyAt(pairs: seq<(string, string)>, key: string, i: nat) {
    i < |pairs| && pairs[i].0 == key && forall j :: 0 <= j < i ==> pairs[j].0 != key
  }

  /** `parse_qs(qs)[key][0]`, or None when `key` is not in the dictionary:
      `parse_qs` appends each value to its name's list in order, so the
      first entry is the value of the first pair named `key`. */
  function FirstValue(pairs: seq<(string, string)>, key: string): (r: Option<string>)
    ensures r.Some? <==> exists i :: 0 <= i < |pairs| && pairs[i].0 == key
    ensures r.Some? ==> exists i: nat :: FirstKeyAt(pairs, key, i) && r.value == pairs[i].1
  {
    if pairs == [] then None
    else if pairs[0].0 == key then
      assert FirstKeyAt(pairs, key, 0);
      Some(pairs[0].1)
    else
      var r := FirstValue(pairs[1..], key);
      if r.Some? then
        var i: nat :| FirstKeyAt(pairs[1..], key, i) && r.value == pairs[1..][i].1;
        assert FirstKeyAt(pairs, key, i + 1);
        r
      else r
  }

  function QueryValue(qs: string, key: string): Option<string> {
    FirstValue(ParseQsl(qs), key)
  }

  // ------------------------------------------------- origins and joins

  predicate IsLowerAlpha(s: string) {
    |s| > 0 && forall i :: 0 <= i < |s| ==> 'a' <= s[i] <= 'z'
  }

  /** A host name with nothing `urlsplit` would cut at or delete. */
  predicate IsPlainHost(h: string) {
    |h| > 0 && forall i :: 0 <= i < |h| ==> h[i] !in {'/', '?', '#', '\t', '\r', '\n'}
  }

  lemma {:induction false} RemoveAbsent(s: string, c: char)
    requires forall i :: 0 <= i < |s| ==> s[i] != c
    ensures RemoveChar(s, c) == s
  {
    if s != [] {
      RemoveAbsent(s[1..], c);
      assert [s[0]] + s[1..] == s;
    }
  }

  lemma RemoveUnsafeFirst(s: string)
    requires s != [] && s[0] !in {'\t', '\r', '\n'}
    ensures RemoveUnsafe(s) != [] && RemoveUnsafe(s)[0] == s[0]
  {
    var a := RemoveChar(s, '\t');
    assert a == [s[0]] + RemoveChar(s[1..], '\t');
    var b := RemoveChar(a, '\r');
    assert b == [s[0]] + RemoveChar(a[1..], '\r');
    assert RemoveChar(b, '\n') == [s[0]] + RemoveChar(b[1..], '\n');
  }

  lemma LowerLowerAlpha(s: string)
    requires IsLowerAlpha(s)
    ensures Lower(s) == s
  {
  }

  lemma OriginUnchanged(scheme: string, host: string)
    requires IsLowerAlpha(scheme) && IsPlainHost(host)
    ensures RemoveUnsafe(LStripC0(scheme + "://" + host)) == scheme + "://" + host
  {
    var base := scheme + "://" + host;
    assert LStripC0(base) == base;
    forall i | 0 <= i < |base| ensures base[i] != '\t' && base[i] != '\r' && base[i] != '\n' {
      if i >= |scheme| + 3 { assert base[i] == host[i - |scheme| - 3]; }
    }
    RemoveAbsent(base, '\t');
    RemoveAbsent(base, '\r');
    RemoveAbsent(base, '\n');
  }

  lemma OriginScheme(scheme: string, host: string, default: string)
    requires IsLowerAlpha(scheme) && IsPlainHost(host)
    ensures SchemeSplit(scheme + "://" + host, default) == (scheme, "//" + host)
  {
    var base := scheme + "://" + host;
    assert base[|scheme|] == ':';
    var i := FirstOf(base, {':'});
    assert i == |scheme|;
    assert base[..|scheme|] == scheme;
    LowerLowerAlpha(scheme);
    assert base[|scheme| + 1..] == "//" + host;
  }

  lemma PlainHostFirstOf(host: string)
    requires IsPlainHost(host)
    ensures FirstOf(host, {'/', '?', '#'}) == |host|
  {
    var n := FirstOf(host, {'/', '?', '#'});
    if n < |host| { assert host[n] in {'/', '?', '#'}; }
  }

  /** `urlparse` splits "scheme://host" into exactly that scheme and host,
      with empty path, params, query and fragment. */
  lemma OriginParse(scheme: string, host: string, default: string)
    requires IsLowerAlpha(scheme) && IsPlainHost(host)
    ensures UrlParse(scheme + "://" + host, default) == ParseResult(scheme, host, "", "", "", "")
  {
    OriginSplit(scheme, host, default);
  }

  lemma OriginSplit(scheme: string, host: string, default: string)
    requires IsLowerAlpha(scheme) && IsPlainHost(host)
    ensures UrlSplit(scheme + "://" + host, default) == SplitResult(scheme, host, "", "", "")
  {
    var base := scheme + "://" + host;
    OriginUnchanged(scheme, host);
    OriginScheme(scheme, host, default);
    var rest := "//" + host;
    assert StartsWith(rest, "//");
    assert rest[2..] == host;
    PlainHostFirstOf(host);
    assert host[..|host|] == host;
    assert UrlSplit(base, default) == SplitResult(scheme, host, "", "", "");
  }

  /** With a non-empty scheme and host, `urlunsplit` starts "scheme://host". */
  lemma UnsplitStartsWithOrigin(scheme: string, netloc: string, path: string, query: string, fragment: string)
    requires scheme != "" && netloc != ""
    ensures StartsWith(UrlUnsplit(scheme, netloc, path, query, fragment), scheme + "://")
  {
    var r := UrlUnsplit(scheme, netloc, path, query, fragment);
    var p := scheme + "://";
    assert r[..|p|] == p;
  }

  /** A reference starting with "/" has no scheme of its own. */
  lemma RootedKeepsDefault(url: string, default: string)
    requires StartsWith(url, "/")
    ensures UrlParse(url, default).scheme == default
  {
    assert url[0] == '/';
    assert LStripC0(url) == url;
    RemoveUnsafeFirst(url);
    var s := RemoveUnsafe(url);
    assert !IsAsciiAlpha(s[0]);
    assert SchemeSplit(s, default).0 == default;
    assert UrlSplit(url, default).scheme == default;
  }

  /** Joining a reference that starts with "/" onto an origin keeps the
      origin's scheme and a host: the result starts with "scheme://". */
  lemma JoinRootedKeepsScheme(scheme: string, host: string, base: string, url: string, prefix: string)
    requires IsLowerAlpha(scheme) && IsPlainHost(host) && base == scheme + "://" + host
    requires scheme in UsesRelative && scheme in UsesNetloc
    requires StartsWith(url, "/") && prefix == scheme + "://"
    ensures StartsWith(UrlJoin(base, url), prefix)
  {
    OriginParse(scheme, host, "");
    var b := UrlParse(base, "");
    RootedKeepsDefault(url, scheme);
    var u := UrlParse(url, b.scheme);
    var r := JoinParts(b, u);
    UnsplitStartsWithOrigin(scheme, r.netloc, if r.params != "" then r.path + ";" + r.params else r.path, r.query, r.fragment);
  }

  // ------------------------------------------- absolute URLs with a query

  predicate NoneOf(s: string, cs: set<char>) {
    forall i :: 0 <= i < |s| ==> s[i] !in cs
  }

  lemma FirstOfAt(s: string, cs: set<char>, n: nat)
    requires n <= |s| && NoneOf(s[..n], cs) && (n < |s| ==> s[n] in cs)
    ensures FirstOf(s, cs) == n
  {
    assert forall i :: 0 <= i < n ==> s[i] == s[..n][i];
  }

  lemma NoneOfConcat(a: string, b: string, cs: set<char>)
    requires NoneOf(a, cs) && NoneOf(b, cs)
    ensures NoneOf(a + b, cs)
  {
  }

  lemma NoneOfUnchanged(s: string)
    requires NoneOf(s, {'\t', '\r', '\n'}) && (s != [] ==> !IsC0OrSpace(s[0]))
    ensures RemoveUnsafe(LStripC0(s)) == s
  {
    assert LStripC0(s) == s;
    RemoveAbsent(s, '\t');
    RemoveAbsent(s, '\r');
    RemoveAbsent(s, '\n');
  }

  /** After "scheme:" comes the rest of the URL. */
  lemma SchemeOf(scheme: string, rest: string, default: string)
    requires IsLowerAlpha(scheme)
    ensures SchemeSplit(scheme + ":" + rest, default) == (scheme, rest)
  {
    var url := scheme + ":" + rest;
    assert url[|scheme|] == ':';
    assert url[..|scheme|] == scheme;
    FirstOfAt(url, {':'}, |scheme|);
    LowerLowerAlpha(scheme);
    assert url[|scheme| + 1..] == rest;
  }

  /** Splitting "path?query" at '#' and then '?'. */
  lemma PathQuerySplit(path: string, query: string)
    requires NoneOf(path, {'?', '#'}) && NoneOf(query, {'#'})
    ensures SplitAt(path + "?" + query, '#') == (path + "?" + query, None)
    ensures SplitAt(path + "?" + query, '?') == (path, Some(query))
  {
    var tail := path + "?" + query;
    NoneOfConcat(path, "?", {'#'});
    NoneOfConcat(path + "?", query, {'#'});
    FirstOfAt(tail, {'#'}, |tail|);
    assert tail[..|path|] == path;
    FirstOfAt(tail, {'?'}, |path|);
    assert tail[|path| + 1..] == query;
  }

  /** `urlsplit` once the scheme and the network location are known. */
  lemma UrlSplitParts(url: string, default: string, scheme: string, host: string, tail: string,
                      path: string, query: string)
    requires RemoveUnsafe(LStripC0(url)) == url
    requires SchemeSplit(url, default) == (scheme, "//" + host + tail)
    requires FirstOf(host + tail, {'/', '?', '#'}) == |host|
    requires SplitAt(tail, '#') == (tail, None) && SplitAt(tail, '?') == (path, Some(query))
    ensures UrlSplit(url, default) == SplitResult(scheme, host, path, query, "")
  {
    var rest := "//" + host + tail;
    assert StartsWith(rest, "//");
    assert rest[2..] == host + tail;
    assert (host + tail)[..|host|] == host && (host + tail)[|host|..] == tail;
  }

  lemma AbsoluteClean(scheme: string, host: string, tail: string, default: string)
    requires IsLowerAlpha(scheme) && IsPlainHost(host)
    requires NoneOf(tail, {'\t', '\r', '\n'})
    ensures RemoveUnsafe(LStripC0(scheme + ":" + ("//" + host + tail))) == scheme + ":" + ("//" + host + tail)
    ensures SchemeSplit(scheme + ":" + ("//" + host + tail), default) == (scheme, "//" + host + tail)
  {
    var unsafe := {'\t', '\r', '\n'};
    NoneOfConcat("//" + host, tail, unsafe);
    NoneOfConcat(scheme + ":", "//" + host + tail, unsafe);
    NoneOfUnchanged(scheme + ":" + ("//" + host + tail));
    SchemeOf(scheme, "//" + host + tail, default);
  }

  /** `urlparse` on "scheme://host/path?query": each part lands where it
      belongs, with no params and no fragment. */
  lemma AbsoluteParse(scheme: string, host: string, path: string, query: string, default: string)
    requires IsLowerAlpha(scheme) && IsPlainHost(host) && scheme in UsesParams
    requires StartsWith(path, "/") && NoneOf(path, {'?', '#', ';', '\t', '\r', '\n'})
    requires NoneOf(query, {'#', '\t', '\r', '\n'})
    ensures UrlParse(scheme + "://" + host + path + "?" + query, default)
         == ParseResult(scheme, host, path, "", query, "")
  {
    UrlRegroup(scheme, host, path, query);
    AbsoluteSplit(scheme, host, path, query, default);
    FirstOfAt(path, {';'}, |path|);
    assert WithParams(SplitResult(scheme, host, path, query, "")) == ParseResult(scheme, host, path, "", query, "");
  }

  lemma UrlRegroup(scheme: string, host: string, path: string, query: string)
    ensures scheme + "://" + host + path + "?" + query == scheme + ":" + ("//" + host + (path + "?" + query))
  {
    assert "://" == ":" + "//";
  }

  lemma AbsoluteSplit(scheme: string, host: string, path: string, query: string, default: string)
    requires IsLowerAlpha(scheme) && IsPlainHost(host)
    requires StartsWith(path, "/") && NoneOf(path, {'?', '#', '\t', '\r', '\n'})
    requires NoneOf(query, {'#', '\t', '\r', '\n'})
    ensures UrlSplit(scheme + ":" + ("//" + host + (path + "?" + query)), default)
         == SplitResult(scheme, host, path, query, "")
  {
    var tail := path + "?" + query;
    var url := scheme + ":" + ("//" + host + tail);
    var unsafe := {'\t', '\r', '\n'};
    NoneOfConcat(path, "?", unsafe);
    NoneOfConcat(path + "?", query, unsafe);
    AbsoluteClean(scheme, host, tail, default);
    var after := host + tail;
    assert after[..|host|] == host;
    assert after[|host|] == '/';
    FirstOfAt(after, {'/', '?', '#'}, |host|);
    PathQuerySplit(path, query);
    UrlSplitParts(url, default, scheme, host, tail, path, query);
  }

  /** A query of one "name=value" field gives back that pair. */
  lemma SingleFieldQuery(name: string, value: string)
    requires NoneOf(name, {'&', '=', '%', '+'}) && value != "" && NoneOf(value, {'&'})
    ensures ParseQsl(name + "=" + value) == [(name, UnquotePlus(value))]
  {
    var f := name + "=" + value;
    assert NoneOf(f, {'&'}) by { NoneOfConcat(name, "=", {'&'}); NoneOfConcat(name + "=", value, {'&'}); }
    AbsentChar(f, '&');
    assert Split(f, "&") == [f];
    assert f[|name|] == '=';
    FirstOfAt(f, {'='}, |name|);
    assert f[..|name|] == name && f[|name| + 1..] == value;
    assert ReplaceChar(name, '+', ' ') == name;
    AbsentChar(name, '%');
    assert UnquotePlus(name) == name;
    assert FieldsToPairs([f]) == [(name, UnquotePlus(value))] + FieldsToPairs([]) by {
      assert [f][0] == f && [f][1..] == [];
    }
  }
}
