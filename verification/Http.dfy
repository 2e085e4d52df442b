/**
 The streaming request parser and the response printer (myTinymuduo/Http/Http_analyse.cpp,
 HttpRequest.h, HttpResponse.cpp).  Pointers into the buffer are offsets from peek().
 */
module Http {
  import opened Prelude
  import opened ByteBuffer
  import LogStream

  const CRLF: string := "\r\n"

  datatype Method = GET | POST | HEAD | PUT | DELETE | TRACE | PATH | Invalid
  datatype Version = Unknown | HTTP10 | HTTP11
  datatype Fields = Fields(meth: Method, version: Version, path: string, query: string, headers: map<string, string>)

  const FRESH := Fields(Invalid, Unknown, "", "", map[])

  // ---- searching and trimming ----

  /** std::find: the first position of c, or the length. */
  function Find(s: string, c: char): (k: nat)
    ensures k <= |s| && (k < |s| ==> s[k] == c) && (forall i :: 0 <= i < k ==> s[i] != c)
  {
    if s == [] || s[0] == c then 0 else 1 + Find(s[1..], c)
  }

  lemma FindAfter(a: string, c: char, b: string)
    requires c !in a
    ensures var s := a + [c] + b; Find(s, c) == |a| && s[..|a|] == a && s[|a| + 1..] == b
  {
    var s := a + [c] + b;
    assert forall i :: 0 <= i < |a| ==> s[i] == a[i] && a[i] in a;
    assert s[|a|] == c;
  }

  lemma SplitAround(s: string, k: nat)
    requires k < |s|
    ensures s == s[..k] + [s[k]] + s[k + 1..]
  {
  }

  lemma FindSplits(s: string, c: char)
    requires Find(s, c) < |s|
    ensures var k := Find(s, c); s == s[..k] + [c] + s[k + 1..] && c !in s[..k]
  {
    var k := Find(s, c);
    SplitAround(s, k);
    forall i | 0 <= i < k ensures s[..k][i] != c {
    }
  }

  predicate IsSpace(c: char) {
    c == ' ' || c == '\t' || c == '\n' || c == '\r' || c as int == 11 || c as int == 12
  }

  /** Past the characters strspn(" \t") counts. */
  function SkipBlanks(s: string): string {
    if s != [] && (s[0] == ' ' || s[0] == '\t') then SkipBlanks(s[1..]) else s
  }

  function TrimEnd(s: string): string {
    if s != [] && IsSpace(s[|s| - 1]) then TrimEnd(s[..|s| - 1]) else s
  }

  function Trim(s: string): string {
    TrimEnd(SkipBlanks(s))
  }

  // ---- the request line ----

  function MethodOf(m: string): Method {
    if m == "GET" then GET else if m == "POST" then POST else if m == "HEAD" then HEAD
    else if m == "PUT" then PUT else if m == "DELETE" then DELETE else if m == "TRACE" then TRACE
    else if m == "PATH" then PATH else Invalid
  }

  function MethodName(m: Method): string {
    match m
    case GET => "GET" case POST => "POST" case HEAD => "HEAD" case PUT => "PUT"
    case DELETE => "DELETE" case TRACE => "TRACE" case PATH => "PATH" case Invalid => "UNKONWN"
  }

  function VersionString(v: Version): string {
    match v
    case Unknown => "" case HTTP10 => "HTTP/1.0" case HTTP11 => "HTTP/1.1"
  }

  /** Path and query, once the second space is found: the query keeps its question mark. */
  function SetTarget(r: Fields, target: string): Fields {
    var q := Find(target, '?');
    if q != |target| then r.(path := target[..q], query := target[q..]) else r.(path := target)
  }

  /** The part of processHeadRequest after the second space. */
  function ProcessVersion(r: Fields, v: string): (Fields, bool) {
    if |v| != 8 || v[..7] != "HTTP/1." then (r, false)
    else if v[7] == '1' then (r.(version := HTTP11), true)
    else if v[7] == '0' then (r.(version := HTTP10), true)
    else (r, false)
  }

  /** The part after the first space. */
  function ProcessTarget(r: Fields, rest: string): (Fields, bool) {
    var e := Find(rest, ' ');
    if e == |rest| then (r, false) else ProcessVersion(SetTarget(r, rest[..e]), rest[e + 1..])
  }

  /** processHeadRequest. */
  function ProcessLine(r: Fields, line: string): (Fields, bool) {
    var sp := Find(line, ' ');
    if sp == |line| then (r, false) else
    var s := r.(meth := MethodOf(line[..sp]));
    if s.meth == Invalid then (s, false) else ProcessTarget(s, line[sp + 1..])
  }

  /** The request line of section 3.1.1 of RFC 7230 that the parser knows. */
  function RequestLine(m: Method, target: string, v: Version): string {
    MethodName(m) + [' '] + (target + [' '] + VersionString(v))
  }

  lemma MethodNameReads(m: Method)
    requires m != Invalid
    ensures MethodOf(MethodName(m)) == m && ' ' !in MethodName(m)
  {
  }

  /** The literals, apart from how reading and printing fit together. */
  lemma LiteralNames(r: Fields)
    ensures MethodOf("GET") == GET && MethodOf("POST") == POST && MethodOf("HEAD") == HEAD && MethodOf("PUT") == PUT
    ensures MethodOf("DELETE") == DELETE && MethodOf("TRACE") == TRACE && MethodOf("PATH") == PATH
    ensures ProcessVersion(r, "HTTP/1.0") == (r.(version := HTTP10), true)
    ensures ProcessVersion(r, "HTTP/1.1") == (r.(version := HTTP11), true)
  {
    assert "HTTP/1.0"[..7] == "HTTP/1." && "HTTP/1.1"[..7] == "HTTP/1.";
  }

  lemma MethodOfPrints(s: string)
    requires MethodOf(s) != Invalid
    ensures MethodName(MethodOf(s)) == s
  {
  }

  lemma VersionReads(r: Fields, v: Version)
    requires v != Unknown
    ensures ProcessVersion(r, VersionString(v)) == (r.(version := v), true)
  {
    assert VersionString(v)[..7] == "HTTP/1.";
  }

  lemma VersionPrints(r: Fields, text: string)
    requires ProcessVersion(r, text).1
    ensures exists v :: v != Unknown && text == VersionString(v)
  {
    var v := if text[7] == '1' then HTTP11 else HTTP10;
    assert text == text[..7] + [text[7]];
    assert VersionString(v) == "HTTP/1." + [text[7]];
  }

  lemma TargetAccepted(r: Fields, target: string, v: Version)
    requires ' ' !in target && v != Unknown
    ensures ProcessTarget(r, target + [' '] + VersionString(v)) == (SetTarget(r, target).(version := v), true)
  {
    FindAfter(target, ' ', VersionString(v));
    VersionReads(SetTarget(r, target), v);
  }

  /** Accepting a well-formed line, and what it sets. */
  lemma WellFormedAccepted(r: Fields, m: Method, target: string, v: Version)
    requires m != Invalid && ' ' !in target && v != Unknown
    ensures ProcessLine(r, RequestLine(m, target, v)) == (SetTarget(r.(meth := m), target).(version := v), true)
  {
    MethodNameReads(m);
    var rest := target + [' '] + VersionString(v);
    assert RequestLine(m, target, v) == MethodName(m) + [' '] + rest;
    FindAfter(MethodName(m), ' ', rest);
    TargetAccepted(r.(meth := m), target, v);
  }

  /** The target goes up to the second space and is cut before its first question mark. */
  lemma CutBeforeQuestion(r: Fields, path: string, args: string)
    requires '?' !in path
    ensures SetTarget(r, path) == r.(path := path)
    ensures SetTarget(r, path + ("?" + args)) == r.(path := path, query := "?" + args)
  {
    FindAfter(path, '?', args);
    var target := path + ['?'] + args;
    assert path + ("?" + args) == target && target[|path|..] == "?" + args;
  }

  /** A line up to its second space, whatever follows, sets the method and the target. */
  lemma WordsRead(r: Fields, m: Method, target: string, tail: string)
    requires m != Invalid && ' ' !in target
    ensures ProcessLine(r, MethodName(m) + [' '] + (target + [' '] + tail))
         == ProcessVersion(SetTarget(r.(meth := m), target), tail)
  {
    MethodNameReads(m);
    FindAfter(MethodName(m), ' ', target + [' '] + tail);
    FindAfter(target, ' ', tail);
  }

  /**
   What a line with a listed method and two spaces sets: the path is the target up to its first question
   mark, the query the rest with that mark, and without one the query stays; the version is set
   exactly when the text after the second space is one of the two that are known, and the answer says so.
   */
  lemma FieldsOfLine(r: Fields, m: Method, path: string, args: string, tail: string)
    requires m != Invalid && ' ' !in path && '?' !in path && ' ' !in args
    ensures var version := if tail == "HTTP/1.0" then HTTP10 else if tail == "HTTP/1.1" then HTTP11 else r.version;
            var ok := tail in ["HTTP/1.0", "HTTP/1.1"];
            && ProcessLine(r, MethodName(m) + [' '] + (path + ("?" + args) + [' '] + tail))
               == (r.(meth := m, path := path, query := "?" + args, version := version), ok)
            && ProcessLine(r, MethodName(m) + [' '] + (path + [' '] + tail))
               == (r.(meth := m, path := path, version := version), ok)
  {
    var s := r.(meth := m);
    CutBeforeQuestion(s, path, args);
    WordsRead(r, m, path + ("?" + args), tail);
    WordsRead(r, m, path, tail);
    VersionTail(SetTarget(s, path + ("?" + args)), tail);
    VersionTail(SetTarget(s, path), tail);
  }

  lemma VersionTail(r: Fields, tail: string)
    ensures ProcessVersion(r, tail)
         == (r.(version := if tail == "HTTP/1.0" then HTTP10 else if tail == "HTTP/1.1" then HTTP11 else r.version),
             tail in ["HTTP/1.0", "HTTP/1.1"])
  {
    LiteralNames(r);
    if |tail| == 8 && tail[..7] == "HTTP/1." {
      assert tail == "HTTP/1." + [tail[7]];
    }
  }

  /** The parts of an accepted line. */
  lemma AcceptedWellFormed(r: Fields, line: string) returns (m: Method, target: string, v: Version)
    requires ProcessLine(r, line).1
    ensures m != Invalid && ' ' !in target && v != Unknown && line == RequestLine(m, target, v)
  {
    var sp := Find(line, ' ');
    FindSplits(line, ' ');
    m := MethodOf(line[..sp]);
    MethodOfPrints(line[..sp]);
    var rest := line[sp + 1..];
    var e := Find(rest, ' ');
    FindSplits(rest, ' ');
    target := rest[..e];
    VersionPrints(SetTarget(r.(meth := m), target), rest[e + 1..]);
    v :| v != Unknown && rest[e + 1..] == VersionString(v);
  }

  /** A line is accepted exactly when it is method SP target SP HTTP/1.0 or HTTP/1.1. */
  lemma AcceptedIff(r: Fields, line: string)
    ensures ProcessLine(r, line).1 <==>
            exists m, target, v :: m != Invalid && ' ' !in target && v != Unknown && line == RequestLine(m, target, v)
  {
    if ProcessLine(r, line).1 {
      var m, target, v := AcceptedWellFormed(r, line);
    }
    if m, target, v :| m != Invalid && ' ' !in target && v != Unknown && line == RequestLine(m, target, v) {
      WellFormedAccepted(r, m, target, v);
    }
  }

  function Reprint(r: Fields): string {
    RequestLine(r.meth, r.path + r.query, r.version)
  }

  /**
   The fields of an accepted line reprint it exactly when the line has a query or the parser
   held none before: a line without a question mark leaves an earlier query in place.
   */
  lemma ReprintIff(r: Fields, line: string)
    requires ProcessLine(r, line).1
    ensures Reprint(ProcessLine(r, line).0) == line <==> (r.query == "" || '?' in line)
  {
    var m, target, v := AcceptedWellFormed(r, line);
    WellFormedAccepted(r, m, target, v);
    QuestionInTarget(m, target, v);
    TargetReprints(r.(meth := m), target);
    var s := ProcessLine(r, line).0;
    if s.path + s.query != target {
      assert |Reprint(s)| == |line| + |r.query|;
    }
  }

  lemma TargetReprints(r: Fields, target: string)
    ensures var s := SetTarget(r, target);
            && (s.path + s.query == target <==> r.query == "" || '?' in target)
            && (s.path + s.query != target ==> s.path + s.query == target + r.query)
            && s.meth == r.meth && s.version == r.version
  {
    var q := Find(target, '?');
    if q == |target| {
      assert r.query != "" ==> |target + r.query| != |target|;
      assert r.query == "" ==> target + r.query == target;
    } else {
      assert target[..q] + target[q..] == target;
      assert target[q] in target;
    }
  }

  lemma QuestionInTarget(m: Method, target: string, v: Version)
    ensures '?' in RequestLine(m, target, v) <==> '?' in target
  {
    assert '?' !in MethodName(m) && '?' !in VersionString(v);
  }

  /** Processing a rejected line again, from the fields it left, changes nothing more. */
  lemma RejectedAgain(r: Fields, line: string)
    requires !ProcessLine(r, line).1
    ensures ProcessLine(ProcessLine(r, line).0, line) == ProcessLine(r, line)
  {
  }

  // ---- the state machine ----

  datatype Check = AtRequestLine | AtHeader | AtContent | Over

  datatype Outcome = Outcome(check: Check, fields: Fields, rest: string)

  function WithHeader(r: Fields, line: string): Fields {
    var colon := Find(line, ':');
    if colon == |line| then r else r.(headers := r.headers[line[..colon] := Trim(line[colon + 1..])])
  }

  /** parseRequest: the state, the request and the bytes left over. */
  function Parse(check: Check, r: Fields, buf: string): (o: Outcome)
    decreases |buf|
  {
    match check
    case AtRequestLine =>
      var k := FirstCRLF(buf);
      if k.None? then Outcome(check, r, buf) else
      var (s, ok) := ProcessLine(r, buf[..k.value]);
      if ok then Parse(AtHeader, s, buf[k.value + 2..]) else Outcome(check, s, buf)
    case AtHeader =>
      var k := FirstCRLF(buf);
      if k.None? then Outcome(check, r, buf)
      else if Find(buf[..k.value], ':') != k.value then Parse(AtHeader, WithHeader(r, buf[..k.value]), buf[k.value + 2..])
      else Outcome(Over, r, buf[k.value + 2..])
    case AtContent => Outcome(Over, r, buf)
    case Over => Outcome(check, r, buf)
  }

  /** The first CRLF of a buffer stays the first when more bytes arrive, even after a lone CR. */
  lemma FirstCRLFStays(a: string, b: string)
    requires FirstCRLF(a).Some?
    ensures FirstCRLF(a + b) == FirstCRLF(a)
  {
    var k := FirstCRLF(a).value;
    assert CRLFAt(a + b, k);
    assert forall i :: 0 <= i < k ==> !CRLFAt(a, i) && (CRLFAt(a + b, i) <==> CRLFAt(a, i));
    var m := FirstCRLF(a + b).value;
    assert CRLFAt(a + b, m);
  }

  /** Parsing a and then what it left over with b, is parsing a + b. */
  lemma {:induction false} ParseMore(check: Check, r: Fields, a: string, b: string)
    requires check == AtRequestLine || check == AtHeader
    ensures var o := Parse(check, r, a);
            && o.check != AtContent
            && Parse(check, r, a + b) == if o.check == Over then o.(rest := o.rest + b)
                                         else Parse(o.check, o.fields, o.rest + b)
    decreases |a|
  {
    var k := FirstCRLF(a);
    if k.Some? {
      FirstCRLFStays(a, b);
      var line, rest := a[..k.value], a[k.value + 2..];
      assert (a + b)[..k.value] == line && (a + b)[k.value + 2..] == rest + b;
      if check == AtRequestLine {
        var (s, ok) := ProcessLine(r, line);
        if ok {
          ParseMore(AtHeader, s, rest, b);
        } else {
          RejectedAgain(r, line);
        }
      } else if Find(line, ':') != |line| {
        ParseMore(AtHeader, WithHeader(r, line), rest, b);
      }
    }
  }

  /** Feeding the pieces of an input one by one, stopping at Over; what is not fed is left over. */
  function Feed(check: Check, r: Fields, buf: string, pieces: seq<string>): Outcome
    decreases |pieces|
  {
    if check == Over || pieces == [] then Outcome(check, r, buf + Concat(pieces))
    else
      var o := Parse(check, r, buf + pieces[0]);
      Feed(o.check, o.fields, o.rest, pieces[1..])
  }

  lemma {:induction false} FeedFrom(check: Check, r: Fields, buf: string, pieces: seq<string>)
    requires check == AtRequestLine || check == AtHeader
    requires Parse(check, r, buf) == Outcome(check, r, buf)
    ensures Feed(check, r, buf, pieces) == Parse(check, r, buf + Concat(pieces))
    decreases |pieces|
  {
    if pieces == [] {
      assert buf + Concat(pieces) == buf;
    } else {
      var a, b := buf + pieces[0], Concat(pieces[1..]);
      assert buf + Concat(pieces) == a + b;
      var o := Parse(check, r, a);
      ParseMore(check, r, a, b);
      if o.check == Over {
        assert Feed(o.check, o.fields, o.rest, pieces[1..]) == Outcome(Over, o.fields, o.rest + b);
      } else {
        Settled(check, r, a);
        FeedFrom(o.check, o.fields, o.rest, pieces[1..]);
      }
    }
  }

  /** Parsing again without new bytes changes nothing. */
  lemma {:induction false} Settled(check: Check, r: Fields, a: string)
    requires check == AtRequestLine || check == AtHeader
    ensures var o := Parse(check, r, a);
            o.check != Over ==> Parse(o.check, o.fields, o.rest) == o
    decreases |a|
  {
    var k := FirstCRLF(a);
    if k.Some? {
      var line, rest := a[..k.value], a[k.value + 2..];
      if check == AtRequestLine {
        var (s, ok) := ProcessLine(r, line);
        if ok {
          Settled(AtHeader, s, rest);
        } else {
          RejectedAgain(r, line);
        }
      } else if Find(line, ':') != |line| {
        Settled(AtHeader, WithHeader(r, line), rest);
      }
    }
  }

  /** However the input is split, the request, the state and the leftover bytes are the same. */
  lemma ChunkingDoesNotMatter(r: Fields, pieces: seq<string>)
    ensures Feed(AtRequestLine, r, "", pieces) == Parse(AtRequestLine, r, Concat(pieces))
  {
    FeedFrom(AtRequestLine, r, "", pieces);
    assert "" + Concat(pieces) == Concat(pieces);
  }

  // ---- the response and its header block ----

  /** HttpRespne; headers is the std::map, of which order (below) lists the keys. */
  datatype Response =
    Response(status: int, message: string, close: bool, body: string, headers: map<string, string>)

  function HeaderLine(key: string, value: string): string {
    key + ": " + value
  }

  function ContentLength(resp: Response): string {
    HeaderLine("Content-Length", LogStream.Decimal(|resp.body|)) + CRLF
  }

  function StatusLine(resp: Response): string {
    Snprintf(32, "HTTP/1.1 " + LogStream.Text(resp.status) + " ") + resp.message + CRLF
  }

  function ConnectionLines(resp: Response): string {
    if resp.close then HeaderLine("Connection", "close") + CRLF
    else Snprintf(32, ContentLength(resp)) + (HeaderLine("Connection", "Keep-Alive") + CRLF)
  }

  ghost predicate Enumerates(order: seq<string>, headers: map<string, string>) {
    && (forall i, j :: 0 <= i < j < |order| ==> order[i] != order[j])
    && (forall k :: k in order <==> k in headers)
  }

  function HeaderLines(order: seq<string>, headers: map<string, string>): string
    requires forall k :: k in order ==> k in headers
  {
    if order == [] then ""
    else HeaderLine(order[0], headers[order[0]]) + CRLF + HeaderLines(order[1..], headers)
  }

  /** What follows the status line. */
  ghost function HeaderBlock(resp: Response, order: seq<string>): string
    requires Enumerates(order, resp.headers)
  {
    ConnectionLines(resp) + (HeaderLines(order, resp.headers) + (CRLF + resp.body))
  }

  /** The length line survives its 32-byte buffer exactly for bodies of at most thirteen digits. */
  lemma ContentLengthFitsIff(resp: Response)
    ensures Snprintf(32, ContentLength(resp)) == ContentLength(resp) <==> |resp.body| < LogStream.Pow10(13)
  {
    var n := |resp.body|;
    assert |ContentLength(resp)| == 18 + |LogStream.Decimal(n)|;
    if n < LogStream.Pow10(13) {
      LogStream.DecimalLength(n, 13);
    } else {
      DecimalAtLeast(n, 13);
    }
  }

  lemma {:induction false} DecimalAtLeast(n: nat, k: nat)
    requires LogStream.Pow10(k) <= n
    ensures k < |LogStream.Decimal(n)|
  {
    if k > 0 && n >= 10 {
      DecimalAtLeast(n / 10, k - 1);
    }
  }

  /** Trimming cuts blanks in front and white space behind, and all of it. */
  lemma TrimCuts(v: string) returns (front: string, back: string)
    ensures v == front + Trim(v) + back
    ensures (forall c :: c in front ==> c in " \t") && (forall c :: c in back ==> IsSpace(c))
    ensures Trim(v) != "" ==> Trim(v)[0] !in " \t" && !IsSpace(Trim(v)[|Trim(v)| - 1])
  {
    front := SkipCuts(v);
    back := TrimEndCuts(SkipBlanks(v));
    assert v == front + (Trim(v) + back);
  }

  lemma {:induction false} SkipCuts(v: string) returns (front: string)
    ensures v == front + SkipBlanks(v) && (forall c :: c in front ==> c in " \t")
    ensures SkipBlanks(v) != "" ==> SkipBlanks(v)[0] !in " \t"
  {
    front := "";
    if v != [] && (v[0] == ' ' || v[0] == '\t') {
      var rest := SkipCuts(v[1..]);
      front := [v[0]] + rest;
    }
  }

  lemma {:induction false} TrimEndCuts(v: string) returns (back: string)
    ensures v == TrimEnd(v) + back && (forall c :: c in back ==> IsSpace(c))
    ensures TrimEnd(v) != "" ==> TrimEnd(v)[0] == v[0] && !IsSpace(TrimEnd(v)[|TrimEnd(v)| - 1])
  {
    back := "";
    if v != [] && IsSpace(v[|v| - 1]) {
      var rest := TrimEndCuts(v[..|v| - 1]);
      back := rest + [v[|v| - 1]];
    }
  }

  /** A header line sets the key before its first colon to the trimmed text after it, and nothing else. */
  lemma HeaderOfLine(r: Fields, key: string, text: string)
    requires ':' !in key
    ensures WithHeader(r, key + [':'] + text) == r.(headers := r.headers[key := Trim(text)])
  {
    FindAfter(key, ':', text);
  }

  /** A trimmed text is one that neither starts with a blank nor ends with white space. */
  lemma TrimmedIff(v: string)
    ensures Trim(v) == v <==> v == "" || (v[0] != ' ' && v[0] != '\t' && !IsSpace(v[|v| - 1]))
  {
    SkipShortens(v);
    TrimEndShortens(SkipBlanks(v));
  }

  lemma {:induction false} SkipShortens(v: string)
    ensures |SkipBlanks(v)| <= |v|
    ensures |SkipBlanks(v)| == |v| ==> v == "" || (v[0] != ' ' && v[0] != '\t')
  {
    if v != [] && (v[0] == ' ' || v[0] == '\t') {
      SkipShortens(v[1..]);
    }
  }

  lemma {:induction false} TrimEndShortens(v: string)
    ensures |TrimEnd(v)| <= |v|
    ensures |TrimEnd(v)| == |v| ==> v == "" || !IsSpace(v[|v| - 1])
  {
    if v != [] && IsSpace(v[|v| - 1]) {
      TrimEndShortens(v[..|v| - 1]);
    }
  }

  /** A key and value that a header line can carry. */
  predicate Printable(key: string, value: string) {
    ':' !in key && FirstCRLF(key).None? && FirstCRLF(value).None?
  }

  lemma LineEnds(line: string, rest: string)
    requires FirstCRLF(line).None?
    ensures FirstCRLF(line + CRLF + rest) == Some(|line|)
  {
    var s := line + CRLF + rest;
    assert CRLFAt(s, |line|);
    var k := FirstCRLF(s).value;
    if k < |line| {
      assert s[k + 1] == if k + 1 < |line| then line[k + 1] else CR;
      assert CRLFAt(line, k);
    }
  }

  /** One header line parsed: its key gets the trimmed value. */
  lemma HeaderLineParses(r: Fields, key: string, value: string, rest: string)
    requires Printable(key, value)
    ensures Parse(AtHeader, r, HeaderLine(key, value) + CRLF + rest)
         == Parse(AtHeader, r.(headers := r.headers[key := Trim(value)]), rest)
  {
    var line := HeaderLine(key, value);
    var s := line + CRLF + rest;
    LineHasNoCRLF(key, value);
    LineEnds(line, rest);
    assert s[..|line|] == line && s[|line| + 2..] == rest;
    assert line == key + [':'] + ([' '] + value);
    FindAfter(key, ':', [' '] + value);
    assert ([' '] + value)[1..] == value;
    assert Trim([' '] + value) == Trim(value);
  }

  lemma LineHasNoCRLF(key: string, value: string)
    requires Printable(key, value)
    ensures FirstCRLF(HeaderLine(key, value)).None?
  {
    var line := HeaderLine(key, value);
    if FirstCRLF(line).Some? {
      var k := FirstCRLF(line).value;
      assert line[k] == CR && line[k + 1] == LF;
      assert line[|key|] == ':' && line[|key| + 1] == ' ';
      if k < |key| {
        assert CRLFAt(key, k);
      } else {
        var j := k - |key| - 2;
        assert value[j] == line[k] && value[j + 1] == line[k + 1];
        assert CRLFAt(value, j);
      }
    }
  }

  function TrimmedOf(order: seq<string>, headers: map<string, string>): map<string, string>
    requires forall k :: k in order ==> k in headers
  {
    map k | k in order :: Trim(headers[k])
  }

  /** Any line without a colon, the blank line among them, ends the headers. */
  lemma LineWithoutColonEnds(r: Fields, line: string, body: string)
    requires ':' !in line && FirstCRLF(line).None?
    ensures Parse(AtHeader, r, line + CRLF + body) == Outcome(Over, r, body)
  {
    var s := line + CRLF + body;
    LineEnds(line, body);
    assert s[..|line|] == line && s[|line| + 2..] == body;
  }

  lemma BlankLineParses(r: Fields, body: string)
    ensures Parse(AtHeader, r, CRLF + body) == Outcome(Over, r, body)
  {
    assert CRLF + body == [] + CRLF + body;
    LineWithoutColonEnds(r, [], body);
  }

  lemma OverlayFirst(base: map<string, string>, order: seq<string>, headers: map<string, string>)
    requires order != [] && forall k :: k in order ==> k in headers
    ensures base[order[0] := Trim(headers[order[0]])] + TrimmedOf(order[1..], headers) == base + TrimmedOf(order, headers)
  {
  }

  lemma Regroup(a: string, b: string, c: string)
    ensures a + b + c == a + (b + c)
  {
  }

  /** A parser that reads one line at a time reads all the lines. */
  lemma {:induction false} LinesRead(parse: (Fields, string) -> Outcome, r: Fields,
                                     order: seq<string>, headers: map<string, string>, end: string, body: string)
    requires forall k :: k in order ==> k in headers && Printable(k, headers[k])
    requires forall f, key, value, rest :: Printable(key, value) ==>
               parse(f, HeaderLine(key, value) + CRLF + rest) == parse(f.(headers := f.headers[key := Trim(value)]), rest)
    requires forall f :: parse(f, end) == Outcome(Over, f, body)
    ensures parse(r, HeaderLines(order, headers) + end)
         == Outcome(Over, r.(headers := r.headers + TrimmedOf(order, headers)), body)
    decreases |order|
  {
    if order == [] {
      assert HeaderLines(order, headers) + end == end;
      assert r.headers + TrimmedOf(order, headers) == r.headers;
    } else {
      var key := order[0];
      var rest := HeaderLines(order[1..], headers) + end;
      Regroup(HeaderLine(key, headers[key]) + CRLF, HeaderLines(order[1..], headers), end);
      var s := r.(headers := r.headers[key := Trim(headers[key])]);
      assert parse(r, HeaderLine(key, headers[key]) + CRLF + rest) == parse(s, rest);
      LinesRead(parse, s, order[1..], headers, end, body);
      OverlayFirst(r.headers, order, headers);
    }
  }

  lemma HeaderLinesParse(r: Fields, order: seq<string>, headers: map<string, string>, body: string)
    requires forall k :: k in order ==> k in headers && Printable(k, headers[k])
    ensures Parse(AtHeader, r, HeaderLines(order, headers) + (CRLF + body))
         == Outcome(Over, r.(headers := r.headers + TrimmedOf(order, headers)), body)
  {
    var parse := (f: Fields, s: string) => Parse(AtHeader, f, s);
    forall f, key, value, rest | Printable(key, value)
      ensures parse(f, HeaderLine(key, value) + CRLF + rest) == parse(f.(headers := f.headers[key := Trim(value)]), rest)
    {
      HeaderLineParses(f, key, value, rest);
    }
    forall f ensures parse(f, CRLF + body) == Outcome(Over, f, body) {
      BlankLineParses(f, body);
    }
    LinesRead(parse, r, order, headers, CRLF + body, body);
  }

  function StandardHeaders(resp: Response): map<string, string> {
    if resp.close then map["Connection" := "close"]
    else map["Content-Length" := LogStream.Decimal(|resp.body|), "Connection" := "Keep-Alive"]
  }

  lemma NoCarriageReturn(s: string)
    requires CR !in s
    ensures FirstCRLF(s).None?
  {
  }

  lemma TrimmedLineParses(r: Fields, key: string, value: string, rest: string)
    requires Printable(key, value) && Trim(value) == value
    ensures Parse(AtHeader, r, HeaderLine(key, value) + CRLF + rest)
         == Parse(AtHeader, r.(headers := r.headers[key := value]), rest)
  {
    HeaderLineParses(r, key, value, rest);
  }

  /** Text without CR that is trimmed can be a header value. */
  lemma PlainPrintable(key: string, value: string)
    requires CR !in key && ':' !in key && CR !in value
    requires value != "" && value[0] != ' ' && value[0] != '\t' && !IsSpace(value[|value| - 1])
    ensures Printable(key, value) && Trim(value) == value
  {
    NoCarriageReturn(key);
    NoCarriageReturn(value);
    TrimmedIff(value);
  }

  lemma ConstantsPrintable()
    ensures Printable("Connection", "close") && Trim("close") == "close"
    ensures Printable("Connection", "Keep-Alive") && Trim("Keep-Alive") == "Keep-Alive"
  {
    PlainPrintable("Connection", "close");
    PlainPrintable("Connection", "Keep-Alive");
  }

  lemma OverlayOne(base: map<string, string>, key: string, value: string)
    ensures base[key := value] == base + map[key := value]
  {
  }

  lemma OverlayTwo(base: map<string, string>, key0: string, value0: string, key1: string, value1: string)
    ensures base[key0 := value0][key1 := value1] == base + map[key0 := value0, key1 := value1]
  {
  }

  lemma ConnectionLinesParse(r: Fields, resp: Response, rest: string)
    requires resp.close || |resp.body| < LogStream.Pow10(13)
    ensures Parse(AtHeader, r, ConnectionLines(resp) + rest)
         == Parse(AtHeader, r.(headers := r.headers + StandardHeaders(resp)), rest)
  {
    ConstantsPrintable();
    if resp.close {
      TrimmedLineParses(r, "Connection", "close", rest);
      OverlayOne(r.headers, "Connection", "close");
    } else {
      var digits := LogStream.Decimal(|resp.body|);
      ContentLengthFitsIff(resp);
      DigitsPrintable(|resp.body|);
      TwoLinesParse(r, "Content-Length", digits, "Connection", "Keep-Alive", rest);
      OverlayTwo(r.headers, "Content-Length", digits, "Connection", "Keep-Alive");
    }
  }

  lemma TwoLinesParse(r: Fields, key0: string, value0: string, key1: string, value1: string, rest: string)
    requires Printable(key0, value0) && Trim(value0) == value0
    requires Printable(key1, value1) && Trim(value1) == value1
    ensures Parse(AtHeader, r, HeaderLine(key0, value0) + CRLF + (HeaderLine(key1, value1) + CRLF) + rest)
         == Parse(AtHeader, r.(headers := r.headers[key0 := value0][key1 := value1]), rest)
  {
    var more := HeaderLine(key1, value1) + CRLF + rest;
    assert HeaderLine(key0, value0) + CRLF + (HeaderLine(key1, value1) + CRLF) + rest
        == HeaderLine(key0, value0) + CRLF + more;
    TrimmedLineParses(r, key0, value0, more);
    TrimmedLineParses(r.(headers := r.headers[key0 := value0]), key1, value1, rest);
  }

  lemma DigitsPrintable(n: nat)
    ensures Printable("Content-Length", LogStream.Decimal(n)) && Trim(LogStream.Decimal(n)) == LogStream.Decimal(n)
  {
    var s := LogStream.Decimal(n);
    LogStream.DecimalReads(n);
    assert s[0] in s && s[|s| - 1] in s;
    PlainPrintable("Content-Length", s);
  }

  /**
   Parsing the header block that the printer writes, from any fields and in any order of the
   headers, ends with exactly the body left over and the headers recovered, their values trimmed.
   */
  lemma HeaderBlockReadsBack(r: Fields, resp: Response, order: seq<string>)
    requires Enumerates(order, resp.headers)
    requires forall k :: k in resp.headers ==> Printable(k, resp.headers[k])
    requires resp.close || |resp.body| < LogStream.Pow10(13)
    ensures Parse(AtHeader, r, HeaderBlock(resp, order))
         == Outcome(Over, r.(headers := r.headers + StandardHeaders(resp) + TrimmedOf(order, resp.headers)), resp.body)
  {
    ConnectionLinesParse(r, resp, HeaderLines(order, resp.headers) + (CRLF + resp.body));
    HeaderLinesParse(r.(headers := r.headers + StandardHeaders(resp)), order, resp.headers, resp.body);
  }

  /** A whole request reads back: the request line, the header lines, the blank line, and the body is left over. */
  lemma RequestReads(r: Fields, m: Method, path: string, args: string, v: Version,
                     order: seq<string>, headers: map<string, string>, body: string)
    requires m != Invalid && v != Unknown && ' ' !in path && '?' !in path && ' ' !in args
    requires FirstCRLF(RequestLine(m, path + ("?" + args), v)).None?
    requires forall k :: k in order ==> k in headers && Printable(k, headers[k])
    ensures Parse(AtRequestLine, r, RequestLine(m, path + ("?" + args), v) + CRLF + (HeaderLines(order, headers) + (CRLF + body)))
         == Outcome(Over, Fields(m, v, path, "?" + args, r.headers + TrimmedOf(order, headers)), body)
  {
    var line, rest := RequestLine(m, path + ("?" + args), v), HeaderLines(order, headers) + (CRLF + body);
    var s := line + CRLF + rest;
    FieldsOfLine(r, m, path, args, VersionString(v));
    LineEnds(line, rest);
    assert s[..|line|] == line && s[|line| + 2..] == rest;
    HeaderLinesParse(ProcessLine(r, line).0, order, headers, body);
  }

  /** A request line that is rejected stays in the buffer, however much follows it. */
  lemma RejectedStays(r: Fields, line: string, rest: string)
    requires FirstCRLF(line).None? && !ProcessLine(r, line).1
    ensures Parse(AtRequestLine, r, line + CRLF + rest) == Outcome(AtRequestLine, ProcessLine(r, line).0, line + CRLF + rest)
  {
    LineEnds(line, rest);
    assert (line + CRLF + rest)[..|line|] == line;
  }

  /** Up to its first two spaces the status line is HTTP/1.1 and the status; the message follows whole. */
  lemma StatusLineSplits(resp: Response)
    requires LogStream.MIN_INT64 <= resp.status <= LogStream.MAX_UINT64
    ensures var line, text := StatusLine(resp), LogStream.Text(resp.status);
            && line == "HTTP/1.1" + [' '] + (text + [' '] + (resp.message + CRLF))
            && Find(line, ' ') == 8 && Find(line[9..], ' ') == |text|
  {
    var text := LogStream.Text(resp.status);
    LogStream.TextFits(resp.status);
    NoSpaceInText(resp.status);
    var rest := text + [' '] + (resp.message + CRLF);
    assert StatusLine(resp) == "HTTP/1.1" + [' '] + rest;
    FindAfter("HTTP/1.1", ' ', rest);
    FindAfter(text, ' ', resp.message + CRLF);
  }

  lemma NoSpaceInText(v: int)
    ensures ' ' !in LogStream.Text(v)
  {
    var n := if v < 0 then -v else v;
    LogStream.DecimalReads(n);
    assert !LogStream.IsDigit(' ');
    assert ' ' !in LogStream.Decimal(n);
    assert LogStream.Text(v) == (if v < 0 then ['-'] else []) + LogStream.Decimal(n);
  }

  /** A printed header line is the key, a colon, one space and the value. */
  lemma HeaderLineSplits(key: string, value: string)
    requires ':' !in key
    ensures var line := HeaderLine(key, value);
            Find(line, ':') == |key| && line[..|key|] == key && line[|key| + 1..] == " " + value
  {
    assert HeaderLine(key, value) == key + [':'] + (" " + value);
    FindAfter(key, ':', " " + value);
  }

  /** The headers come back as they were exactly when every value was trimmed. */
  lemma HeadersReadBackIff(r: Fields, resp: Response, order: seq<string>)
    requires Enumerates(order, resp.headers)
    requires forall k :: k in resp.headers ==> Printable(k, resp.headers[k])
    requires resp.close || |resp.body| < LogStream.Pow10(13)
    ensures var got := Parse(AtHeader, r, HeaderBlock(resp, order)).fields.headers;
            && (forall k :: k in resp.headers ==> k in got)
            && ((forall k :: k in resp.headers ==> got[k] == resp.headers[k])
                <==> (forall k :: k in resp.headers ==> Trim(resp.headers[k]) == resp.headers[k]))
  {
    HeaderBlockReadsBack(r, resp, order);
    var got := Parse(AtHeader, r, HeaderBlock(resp, order)).fields.headers;
    forall k | k in resp.headers ensures k in got && got[k] == Trim(resp.headers[k]) {
      assert k in order;
    }
  }

  /** appendToBuffer; order is the iteration order of the map. */
  method AppendToBuffer(resp: Response, order: seq<string>, output: Buffer)
    requires output.Valid() && Enumerates(order, resp.headers)
    modifies output, output.data
    ensures output.Valid() && (output.data == old(output.data) || fresh(output.data))
    ensures output.Contents() == old(output.Contents()) + (StatusLine(resp) + HeaderBlock(resp, order))
  {
    ghost var was := output.Contents();
    AppendStatus(resp, output);
    AppendConnection(resp, output);
    AppendHeaders(resp.headers, order, output);
    AppendTwo(CRLF, resp.body, output);
    Associative(was, StatusLine(resp), ConnectionLines(resp), HeaderLines(order, resp.headers), CRLF + resp.body);
  }

  lemma Associative(a: string, b: string, c: string, d: string, e: string)
    ensures a + b + c + d + e == a + (b + (c + (d + e)))
  {
  }

  method AppendTwo(a: string, b: string, output: Buffer)
    requires output.Valid()
    modifies output, output.data
    ensures output.Valid() && (output.data == old(output.data) || fresh(output.data))
    ensures output.Contents() == old(output.Contents()) + (a + b)
  {
    ghost var was := output.Contents();
    output.Append(a);
    output.Append(b);
    assert was + a + b == was + (a + b);
  }

  method AppendStatus(resp: Response, output: Buffer)
    requires output.Valid()
    modifies output, output.data
    ensures output.Valid() && (output.data == old(output.data) || fresh(output.data))
    ensures output.Contents() == old(output.Contents()) + StatusLine(resp)
  {
    ghost var was := output.Contents();
    var start := Snprintf(32, "HTTP/1.1 " + LogStream.Text(resp.status) + " ");
    AppendTwo(start, resp.message, output);
    output.Append(CRLF);
    assert was + (start + resp.message) + CRLF == was + (start + resp.message + CRLF);
  }

  method AppendConnection(resp: Response, output: Buffer)
    requires output.Valid()
    modifies output, output.data
    ensures output.Valid() && (output.data == old(output.data) || fresh(output.data))
    ensures output.Contents() == old(output.Contents()) + ConnectionLines(resp)
  {
    if resp.close {
      output.Append("Connection: close\r\n");
      assert "Connection: close\r\n" == HeaderLine("Connection", "close") + CRLF;
    } else {
      AppendTwo(Snprintf(32, ContentLength(resp)), "Connection: Keep-Alive\r\n", output);
      assert "Connection: Keep-Alive\r\n" == HeaderLine("Connection", "Keep-Alive") + CRLF;
    }
  }

  /** The loop over the headers. */
  method AppendHeaders(headers: map<string, string>, order: seq<string>, output: Buffer)
    requires output.Valid() && forall k :: k in order ==> k in headers
    modifies output, output.data
    ensures output.Valid() && (output.data == old(output.data) || fresh(output.data))
    ensures output.Contents() == old(output.Contents()) + HeaderLines(order, headers)
  {
    ghost var was := output.Contents();
    assert order[0..] == order;
    for i := 0 to |order|
      invariant output.Valid() && (output.data == old(output.data) || fresh(output.data))
      invariant output.Contents() + HeaderLines(order[i..], headers) == was + HeaderLines(order, headers)
    {
      ghost var before, left := output.Contents(), order[i..];
      assert left[0] == order[i] && left[1..] == order[i + 1..];
      AppendHeader(order[i], headers[order[i]], output);
      Regroup(before, HeaderLine(order[i], headers[order[i]]) + CRLF, HeaderLines(left[1..], headers));
    }
    assert output.Contents() + HeaderLines([], headers) == output.Contents();
  }

  method AppendHeader(key: string, value: string, output: Buffer)
    requires output.Valid()
    modifies output, output.data
    ensures output.Valid() && (output.data == old(output.data) || fresh(output.data))
    ensures output.Contents() == old(output.Contents()) + (HeaderLine(key, value) + CRLF)
  {
    ghost var was := output.Contents();
    AppendTwo(key, ": ", output);
    AppendTwo(value, CRLF, output);
    assert was + (key + ": ") + (value + CRLF) == was + (HeaderLine(key, value) + CRLF);
  }

  // ---- the request and the parser as objects ----

  class HttpRequest {
    var meth: Method
    var version: Version
    var path: string
    var query: string
    var headers: map<string, string>

    function Value(): Fields
      reads this
    {
      Fields(meth, version, path, query, headers)
    }

    constructor ()
      ensures Value() == FRESH
    {
      meth, version, path, query, headers := Invalid, Unknown, "", "", map[];
    }

    method SetMethod(m: string) returns (ok: bool)
      modifies this`meth
      ensures meth == MethodOf(m) && ok == (meth != Invalid)
    {
      meth := MethodOf(m);
      ok := meth != Invalid;
    }

    method SetVersion(v: Version)
      modifies this`version
      ensures version == v
    {
      version := v;
    }

    method SetPath(text: string)
      modifies this`path
      ensures path == text
    {
      path := text;
    }

    method SetQuery(text: string)
      modifies this`query
      ensures query == text
    {
      query := text;
    }

    method Swap(that: HttpRequest)
      modifies this, that
      ensures Value() == old(that.Value()) && that.Value() == old(Value())
    {
      meth, that.meth := that.meth, meth;
      version, that.version := that.version, version;
      path, that.path := that.path, path;
      query, that.query := that.query, query;
      headers, that.headers := that.headers, headers;
    }

    /** The line from its start, with the colon at the given offset, up to its end. */
    method AddHeader(line: string, colon: nat)
      requires colon == Find(line, ':') && colon < |line|
      modifies this`headers
      ensures Value() == WithHeader(old(Value()), line)
    {
      var field := line[..colon];
      var value := SkipBlanks(line[colon + 1..]);
      while value != "" && IsSpace(value[|value| - 1])
        invariant TrimEnd(value) == Trim(line[colon + 1..])
        decreases |value|
      {
        value := value[..|value| - 1];
      }
      headers := headers[field := value];
    }
  }

  /** What the loop comes to from here: it goes on, or it has ended. */
  function Rest(more: bool, check: Check, r: Fields, buf: string): Outcome {
    if more then Parse(check, r, buf) else Outcome(check, r, buf)
  }

  lemma LineTurn(r: Fields, was: string, s: Fields, now: string, ok: bool)
    requires var crlf := FirstCRLF(was);
             if crlf.None? then !ok && now == was && s == r
             else (s, ok) == ProcessLine(r, was[..crlf.value]) && now == if ok then was[crlf.value + 2..] else was
    ensures Rest(ok, if ok then AtHeader else AtRequestLine, s, now) == Parse(AtRequestLine, r, was)
  {
    var crlf := FirstCRLF(was);
    if crlf.Some? {
      assert (s, ok) == ProcessLine(r, was[..crlf.value]);
      if ok {
        assert Rest(true, AtHeader, s, now) == Parse(AtHeader, s, now);
      } else {
        assert Rest(false, AtRequestLine, s, now) == Outcome(AtRequestLine, s, was);
      }
    }
  }

  lemma HeaderTurn(r: Fields, was: string, s: Fields, now: string, check: Check, more: bool)
    requires var crlf := FirstCRLF(was);
             if crlf.None? then !more && check == AtHeader && now == was && s == r
             else
               && now == was[crlf.value + 2..] && s == WithHeader(r, was[..crlf.value])
               && if Find(was[..crlf.value], ':') != crlf.value then more && check == AtHeader
                  else check == if more then AtContent else Over
    ensures Rest(more, check, s, now) == Parse(AtHeader, r, was)
  {
  }

  lemma ContentTurn(r: Fields, was: string)
    ensures Rest(false, Over, r, was) == Parse(AtContent, r, was)
  {
  }

  class HttpAnalyse {
    var state: Check
    const request: HttpRequest

    constructor ()
      ensures state == AtRequestLine && request.Value() == FRESH && fresh(request)
    {
      state := AtRequestLine;
      request := new HttpRequest();
    }

    /** processHeadRequest, on the text between its two pointers. */
    method ProcessHeadRequest(line: string) returns (succeed: bool)
      modifies request
      ensures (request.Value(), succeed) == ProcessLine(old(request.Value()), line)
    {
      succeed := false;
      var space := Find(line, ' ');
      if space != |line| {
        succeed := request.SetMethod(line[..space]);
        if succeed {
          succeed := Target(line[space + 1..]);
        }
      }
    }

    method Target(rest: string) returns (succeed: bool)
      modifies request
      ensures (request.Value(), succeed) == ProcessTarget(old(request.Value()), rest)
    {
      var start := Find(rest, ' ');
      if start == |rest| {
        return false;
      }
      var target := rest[..start];
      var question := Find(target, '?');
      request.SetPath(target[..question]);
      if question != start {
        request.SetQuery(target[question..]);
      } else {
        assert target[..question] == target;
      }
      var version := rest[start + 1..];
      succeed := |version| == 8 && version[..7] == "HTTP/1.";
      if succeed {
        if version[7] == '1' {
          request.SetVersion(HTTP11);
        } else if version[7] == '0' {
          request.SetVersion(HTTP10);
        } else {
          succeed := false;
        }
      }
    }

    /**
     parseRequest, which must not be entered in the state Over.  The byte after the blank line,
     which may lie past the data, is left open: both values of it end in Over.  The result says
     whether this call, and not an earlier one, accepted the request line.
     */
    method ParseRequest(buffer: Buffer) returns (ok: bool)
      requires buffer.Valid() && state != Over
      modifies this`state, request, buffer`reader, buffer`writer
      ensures buffer.Valid()
      ensures Outcome(state, request.Value(), buffer.Contents())
           == Parse(old(state), old(request.Value()), old(buffer.Contents()))
      ensures ok <==> old(state) == AtRequestLine && state != AtRequestLine
    {
      ok := false;
      var hasMore := true;
      ghost var outcome := Parse(state, request.Value(), buffer.Contents());
      while hasMore
        invariant buffer.Valid() && (hasMore ==> state != Over)
        invariant Rest(hasMore, state, request.Value(), buffer.Contents()) == outcome
        invariant ok <==> old(state) == AtRequestLine && state != AtRequestLine
        invariant old(state) != AtRequestLine ==> state != AtRequestLine
        decreases hasMore, |buffer.Contents()|
      {
        ghost var r, was := request.Value(), buffer.Contents();
        if state == AtRequestLine {
          ok, hasMore := LineStep(buffer);
          LineTurn(r, was, request.Value(), buffer.Contents(), ok);
        } else if state == AtHeader {
          hasMore := HeaderStep(buffer);
          HeaderTurn(r, was, request.Value(), buffer.Contents(), state, hasMore);
        } else {
          state := Over;
          hasMore := false;
          ContentTurn(r, was);
        }
      }
    }

    /** What lies before the first CRLF of the buffer. */
    method FirstLine(buffer: Buffer) returns (line: Option<string>)
      requires buffer.Valid()
      ensures var crlf := FirstCRLF(buffer.Contents());
              line == if crlf.Some? then Some(buffer.Contents()[..crlf.value]) else None
    {
      var crlf := buffer.FindCRLF();
      if crlf.None? {
        return None;
      }
      var text := buffer.Peek(crlf.value);
      return Some(text);
    }

    method LineStep(buffer: Buffer) returns (ok: bool, hasMore: bool)
      requires buffer.Valid() && state == AtRequestLine
      modifies this`state, request, buffer`reader, buffer`writer
      ensures buffer.Valid() && ok == hasMore && state == if ok then AtHeader else AtRequestLine
      ensures var crlf, was := FirstCRLF(old(buffer.Contents())), old(buffer.Contents());
              if crlf.None? then !ok && buffer.Contents() == was && request.Value() == old(request.Value())
              else
                && (request.Value(), ok) == ProcessLine(old(request.Value()), was[..crlf.value])
                && buffer.Contents() == if ok then was[crlf.value + 2..] else was
    {
      ok, hasMore := false, false;
      var line := FirstLine(buffer);
      if line.Some? {
        ok := ProcessHeadRequest(line.value);
        if ok {
          buffer.Retrieve(|line.value| + 2);
          state := AtHeader;
          hasMore := true;
        }
      }
    }

    method HeaderStep(buffer: Buffer) returns (hasMore: bool)
      requires buffer.Valid() && state == AtHeader
      modifies this`state, request, buffer`reader, buffer`writer
      ensures buffer.Valid()
      ensures var crlf, was := FirstCRLF(old(buffer.Contents())), old(buffer.Contents());
              if crlf.None? then
                !hasMore && state == AtHeader && buffer.Contents() == was && request.Value() == old(request.Value())
              else
                && buffer.Contents() == was[crlf.value + 2..]
                && request.Value() == WithHeader(old(request.Value()), was[..crlf.value])
                && if Find(was[..crlf.value], ':') != crlf.value then hasMore && state == AtHeader
                   else state == if hasMore then AtContent else Over
    {
      hasMore := true;
      var line := FirstLine(buffer);
      if line.None? {
        return false;
      }
      var colon := Find(line.value, ':');
      if colon != |line.value| {
        request.AddHeader(line.value, colon);
      } else if * {
        state := Over;
        hasMore := false;
      } else {
        state := AtContent;
      }
      buffer.Retrieve(|line.value| + 2);
    }

    method Reset()
      modifies this`state, request
      ensures state == AtRequestLine && request.Value() == FRESH
    {
      state := AtRequestLine;
      var dummy := new HttpRequest();
      request.Swap(dummy);
    }
  }
}
