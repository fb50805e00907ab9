/** The text NGINX lists its upstreams in, and the parser that reads it back. */
module Listing {
  import opened Text
  import opened Backends
  import opened Diff

  // -------------------------------------------------------- string library

  function Split(s: string, sep: char): seq<string> {
    if s == [] then [[]]
    else
      var rest := Split(s[1..], sep);
      if s[0] == sep then [[]] + rest
      else [[s[0]] + (if rest == [] then [] else rest[0])] + (if rest == [] then [] else rest[1..])
  }

  function WordLength(s: string): (n: nat)
    ensures n <= |s|
  {
    if s == [] || IsSpace(s[0]) then 0 else 1 + WordLength(s[1..])
  }

  /** strings.Fields. */
  function Fields(s: string): seq<string>
    decreases |s|
  {
    if s == [] then []
    else if IsSpace(s[0]) then Fields(s[1..])
    else var n := WordLength(s); [s[..n]] + Fields(s[n..])
  }

  function LastIndex(s: string, c: char): (i: int)
    ensures -1 <= i < |s|
  {
    if s == [] then -1 else if s[|s| - 1] == c then |s| - 1 else LastIndex(s[..|s| - 1], c)
  }

  function Index(s: string, c: char): (i: int)
    ensures -1 <= i < |s|
  {
    if s == [] then -1 else if s[0] == c then 0 else var i := Index(s[1..], c); if i < 0 then -1 else i + 1
  }

  /** net.SplitHostPort. */
  function SplitHostPort(hp: string): Option<(string, string)> {
    var i := LastIndex(hp, ':');
    if i < 0 then None
    else if hp[0] == '[' then
      var end := Index(hp, ']');
      if end < 1 || end + 1 != i then None
      else if '[' in hp[1..] || ']' in hp[end + 1..] then None
      else Some((hp[1..end], hp[i + 1..]))
    else if ':' in hp[..i] || '[' in hp || ']' in hp then None
    else Some((hp[..i], hp[i + 1..]))
  }

  /** Conversion to int32. */
  function Wrap32(n: int): int { (n + 0x8000_0000) % 0x1_0000_0000 - 0x8000_0000 }

  lemma {:induction false} Wrap32Is(n: int)
    ensures -0x8000_0000 <= Wrap32(n) < 0x8000_0000 && exists q :: n == Wrap32(n) + q * 0x1_0000_0000
  {
    var q := (n + 0x8000_0000) / 0x1_0000_0000;
    assert n == Wrap32(n) + q * 0x1_0000_0000;
  }

  // ----------------------------------------------------------- the parser

  const SERVER := "server "
  const UPSTREAM := "upstream "
  const WEIGHT := "weight="

  function WeightOf(fields: seq<string>): int {
    if fields == [] then 1
    else if HasPrefix(fields[0], WEIGHT) then
      match Atoi(TrimPrefix(fields[0], WEIGHT))
      case Some(w) => if w > 0 then w else 1
      case None => 1
    else WeightOf(fields[1..])
  }

  /** The backend on a trimmed line that starts with `server `, if it is readable. */
  function ParseServer(line: string): Option<Backend> {
    var fields := Fields(TrimSuffix(TrimSpace(TrimPrefix(line, SERVER)), ";"));
    if fields == [] then None
    else
      match SplitHostPort(fields[0])
      case None => None
      case Some((host, portText)) =>
        match Atoi(portText)
        case None => None
        case Some(port) =>
          var ip := if ':' in host && HasPrefix(fields[0], "[") then "[" + host + "]" else host;
          Some(Backend(ip, Wrap32(port), WeightOf(fields[1..])))
  }

  predicate IsHeader(line: string) { HasSuffix(line, ":") || HasPrefix(line, UPSTREAM) || HasSuffix(line, "{") }

  function HeaderName(line: string): string {
    TrimSpace(TrimSuffix(TrimPrefix(TrimSuffix(line, ":"), UPSTREAM), "{"))
  }

  predicate Blank(line: string) { line == "" || HasPrefix(line, "#") || HasPrefix(line, "//") }

  /** The upstream being read, and the backends read so far. */
  datatype Reading = Reading(current: string, result: Server)

  function Append(m: Server, name: string, b: Backend): Server { m[name := At(m, name) + [b]] }

  function ReadLine(r: Reading, raw: string): Reading {
    var line := TrimSpace(raw);
    if Blank(line) then r
    else if HasPrefix(line, SERVER) then
      match ParseServer(line)
      case Some(b) => r.(result := Append(r.result, r.current, b))
      case None => r
    else if IsHeader(line) then r.(current := HeaderName(line))
    else r
  }

  function ReadLines(lines: seq<string>): Reading {
    if lines == [] then Reading("", map[]) else ReadLine(ReadLines(lines[..|lines| - 1]), lines[|lines| - 1])
  }

  method ParseBulkNginxBackends(response: string) returns (result: Server)
    ensures result == ReadLines(Split(response, '\n')).result
  {
    result := map[];
    var current := "";
    var lines := Split(response, '\n');
    for i := 0 to |lines|
      invariant Reading(current, result) == ReadLines(lines[..i])
    {
      assert lines[..i + 1][..i] == lines[..i];
      var line := TrimSpace(lines[i]);
      if Blank(line) { continue; }
      if HasPrefix(line, SERVER) {
        var b := ParseServer(line);
        if b.None? { continue; }
        result := result[current := (if current in result then result[current] else []) + [b.value]];
      } else if IsHeader(line) {
        current := HeaderName(line);
      }
    }
    assert lines[..|lines|] == lines;
  }

  // -------------------------------------------------------------- printing

  /** A word of a server line, and the white space before it. */
  datatype Word = Word(gap: string, text: string)

  /** One line of a listing, with whatever white space around it. A header names an upstream, after the keyword
      `upstream` or before a colon or a brace. A server line gives an address and any further words. */
  datatype Item =
    | Noise(text: string)
    | Header(name: string, keyword: bool, lead: string, gap: string, mark: string, before: string, after: string)
    | ServerLine(backend: Backend, gap: string, words: seq<Word>, semicolon: bool, before: string, after: string)

  function Print1(i: Item): string {
    match i
    case Noise(text) => text
    case Header(name, keyword, lead, gap, mark, before, after) =>
      before + HeaderText(name, keyword, lead, gap, mark) + after
    case ServerLine(b, gap, words, semicolon, before, after) =>
      before + ServerText(gap, FormatServerAddr(b), words, semicolon) + after
  }

  function HeaderText(name: string, keyword: bool, lead: string, gap: string, mark: string): string {
    (if keyword then "upstream " + lead else "") + (name + gap + mark)
  }

  function WordsText(words: seq<Word>): string {
    if words == [] then "" else words[0].gap + words[0].text + WordsText(words[1..])
  }

  function ServerText(gap: string, addr: string, words: seq<Word>, semicolon: bool): string {
    "server " + (gap + (addr + WordsText(words)) + (if semicolon then ";" else ""))
  }

  function Texts(words: seq<Word>): seq<string> { seq(|words|, i requires 0 <= i < |words| => words[i].text) }

  function Printed(items: seq<Item>): seq<string> {
    if items == [] then [] else Printed(items[..|items| - 1]) + [Print1(items[|items| - 1])]
  }

  function Join(lines: seq<string>, sep: char): string {
    if lines == [] then [] else if |lines| == 1 then lines[0] else lines[0] + [sep] + Join(lines[1..], sep)
  }

  predicate AllSpace(s: string) { All(IsSpace, s) }

  ghost predicate NoSpace(s: string) { forall i :: 0 <= i < |s| ==> !IsSpace(s[i]) }

  ghost predicate Tight(core: string) { core != [] && !IsSpace(core[0]) && !IsSpace(core[|core| - 1]) }

  /** `hp` is a host and a port, an IPv6 host in brackets. */
  ghost predicate HostPort(hp: string, host: string, port: string) {
    && ':' !in port && '[' !in host + port && ']' !in host + port
    && ((hp == host + ":" + port && ':' !in host) || hp == "[" + host + "]:" + port)
  }

  /** Blank lines, comments, other directives, closing braces, and servers without a readable address. */
  ghost predicate Ignorable(text: string) {
    || AllSpace(text)
    || exists before, core, after ::
      && text == before + core + after && AllSpace(before) && AllSpace(after) && Tight(core)
      && (Comment(core) || Unknown(core) || Unreadable(core))
  }

  ghost predicate Comment(core: string) {
    |core| >= 1 && (core[0] == '#' || (core[0] == '/' && |core| >= 2 && core[1] == '/'))
  }

  ghost predicate Unknown(core: string) {
    && core != [] && core[|core| - 1] != ':' && core[|core| - 1] != '{'
    && (forall rest :: core != "server " + rest) && (forall rest :: core != "upstream " + rest)
  }

  ghost predicate Unreadable(core: string) {
    exists gap, addr, words ::
      && core == ServerText(gap, addr, words, true) && AllSpace(gap) && Spaced(words) && addr != [] && NoSpace(addr)
      && forall host, port, n :: HostPort(addr, host, port) ==> Atoi(port) != Some(n)
  }

  ghost predicate Spaced(words: seq<Word>) {
    forall i :: 0 <= i < |words| ==>
      words[i].gap != [] && AllSpace(words[i].gap) && words[i].text != [] && NoSpace(words[i].text)
  }

  /** The weight a server line gives: that of the first word that begins with `weight=`, if it is a positive number, and
      1 otherwise. */
  ghost predicate GivesWeight(words: seq<string>, weight: int) {
    if exists i :: FirstWeight(words, i) then
      forall i :: FirstWeight(words, i) ==>
        match Atoi(words[i][7..])
        case Some(w) => weight == if w >= 1 then w else 1
        case None => weight == 1
    else weight == 1
  }

  ghost predicate SaysWeight(word: string) { |word| >= 7 && word[..7] == "weight=" }

  ghost predicate FirstWeight(words: seq<string>, i: int) {
    0 <= i < |words| && SaysWeight(words[i]) && forall j :: 0 <= j < i ==> !SaysWeight(words[j])
  }

  ghost predicate PlainIP(ip: string) { ip != [] && NoSpace(ip) && forall i :: 0 <= i < |ip| ==> !IsBracket(ip[i]) }

  /** Only a header with the keyword may do without a mark, and a name must not read as a keyword, comment or mark. */
  ghost predicate GoodHeader(name: string, keyword: bool, lead: string, gap: string, mark: string) {
    && name != [] && NoSpace(name) && AllSpace(gap) && AllSpace(lead) && (!keyword ==> lead == "")
    && mark in {"", ":", "{"} && (mark == "" ==> keyword && gap == "" && name[|name| - 1] != ':')
    && name[|name| - 1] != '{'
    && (!keyword ==> !Comment(name) && name != "server" && name != "upstream")
  }

  /** Lines a listing may consist of. */
  ghost predicate WellFormed(i: Item) {
    match i
    case Noise(text) => Ignorable(text)
    case Header(name, keyword, lead, gap, mark, before, after) =>
      GoodHeader(name, keyword, lead, gap, mark) && AllSpace(before) && AllSpace(after)
    case ServerLine(b, gap, words, semicolon, before, after) =>
      && AllSpace(before) && AllSpace(after) && AllSpace(gap) && PlainIP(CleanIP(b.ip)) && Spaced(words)
      && (!semicolon && words != [] ==> !HasSuffix(words[|words| - 1].text, ";"))
      && -0x8000_0000 <= b.port < 0x8000_0000 && GivesWeight(Texts(words), b.weight)
  }

  /** A backend as it comes back: an IPv6 address in brackets. */
  function ReadBack(b: Backend): Backend {
    var ip := CleanIP(b.ip);
    Backend(if ':' in ip then "[" + ip + "]" else ip, b.port, b.weight)
  }

  // ------------------------------------------------------ lemmas on strings

  lemma TrimPadded(before: string, core: string, after: string)
    requires AllSpace(before) && AllSpace(after)
    requires core != [] && !IsSpace(core[0]) && !IsSpace(core[|core| - 1])
    ensures TrimSpace(before + core + after) == core
  {
    Trimmed(before, core, after, IsSpace);
  }

  lemma {:induction false} TrimCore(core: string)
    requires core != [] && !IsSpace(core[0]) && !IsSpace(core[|core| - 1])
    ensures TrimSpace(core) == core
  {
    TrimPadded([], core, []);
    assert [] + core + [] == core;
  }

  lemma {:induction false} WordLengthIs(a: string, rest: string)
    requires NoSpace(a) && (rest == [] || IsSpace(rest[0]))
    ensures WordLength(a + rest) == |a|
  {
    if a == [] { assert a + rest == rest; } else {
      assert (a + rest)[1..] == a[1..] + rest;
      WordLengthIs(a[1..], rest);
    }
  }

  lemma {:induction false} FieldsGap(gap: string, s: string)
    requires AllSpace(gap)
    ensures Fields(gap + s) == Fields(s)
    decreases |gap|
  {
    if gap == [] { assert gap + s == s; } else {
      assert (gap + s)[1..] == gap[1..] + s;
      FieldsGap(gap[1..], s);
    }
  }

  lemma {:induction false} FieldsWord(a: string, rest: string)
    requires a != [] && NoSpace(a) && (rest == [] || IsSpace(rest[0]))
    ensures Fields(a + rest) == [a] + Fields(rest)
  {
    WordLengthIs(a, rest);
    assert (a + rest)[..|a|] == a && (a + rest)[|a|..] == rest;
  }

  lemma {:induction false} WordsTextStart(words: seq<Word>)
    requires Spaced(words)
    ensures WordsText(words) == [] || IsSpace(WordsText(words)[0])
  {
    if words != [] { assert WordsText(words)[0] == words[0].gap[0]; }
  }

  lemma {:induction false} WordsTextEnd(words: seq<Word>)
    requires Spaced(words) && words != []
    ensures
      var t, last := WordsText(words), words[|words| - 1].text;
      t != [] && last != [] && t[|t| - 1] == last[|last| - 1]
  {
    var rest := words[1..];
    if rest == [] {
      assert WordsText(words) == words[0].gap + words[0].text + WordsText([]);
    } else {
      WordsTextEnd(rest);
      assert rest[|rest| - 1] == words[|words| - 1];
    }
  }

  lemma {:induction false} FieldsWords(words: seq<Word>)
    requires Spaced(words)
    ensures Fields(WordsText(words)) == Texts(words)
  {
    if words != [] {
      var w, rest := words[0], WordsText(words[1..]);
      FieldsWords(words[1..]);
      WordsTextStart(words[1..]);
      assert w.gap + w.text + rest == w.gap + (w.text + rest);
      FieldsGap(w.gap, w.text + rest);
      FieldsWord(w.text, rest);
      assert Texts(words) == [w.text] + Texts(words[1..]);
    }
  }

  lemma FieldsOfServer(addr: string, words: seq<Word>)
    requires addr != [] && NoSpace(addr) && Spaced(words)
    ensures Fields(addr + WordsText(words)) == [addr] + Texts(words)
  {
    WordsTextStart(words);
    FieldsWord(addr, WordsText(words));
    FieldsWords(words);
  }

  lemma {:induction false} LastIndexIs(a: string, p: string)
    requires ':' !in p
    ensures LastIndex(a + ":" + p, ':') == |a|
  {
    var s := a + ":" + p;
    if p == [] { assert s[|s| - 1] == ':'; } else {
      var n := |p| - 1;
      assert s[|s| - 1] == p[n] && p[n] in p;
      assert s[..|s| - 1] == a + ":" + p[..n];
      LastIndexIs(a, p[..n]);
    }
  }

  lemma {:induction false} IndexIs(a: string, c: char, rest: string)
    requires c !in a
    ensures Index(a + [c] + rest, c) == |a|
  {
    var s := a + [c] + rest;
    if a != [] {
      assert s[0] == a[0] && a[0] in a;
      assert s[1..] == a[1..] + [c] + rest;
      IndexIs(a[1..], c, rest);
    }
  }

  lemma PrintedPlain(n: int)
    ensures Text.Print(n) != [] && NoSpace(Text.Print(n)) && ':' !in Text.Print(n) && '[' !in Text.Print(n)
      && ']' !in Text.Print(n)
  {
    PrintedChars(n);
  }

  lemma SplitBracketed(ip: string, p: string)
    requires '[' !in ip && ']' !in ip && ':' !in p && '[' !in p && ']' !in p
    ensures SplitHostPort("[" + ip + "]" + ":" + p) == Some((ip, p))
  {
    var hp := "[" + ip + "]" + ":" + p;
    var head := "[" + ip + "]";
    LastIndexIs(head, p);
    assert ']' !in "[" + ip;
    IndexIs("[" + ip, ']', ":" + p);
    assert hp == ("[" + ip) + [']'] + (":" + p);
    var end := |ip| + 1;
    assert hp[1..end] == ip && hp[end + 2..] == p;
    assert hp[1..] == ip + "]" + ":" + p;
    assert '[' !in hp[1..];
    assert hp[end + 1..] == ":" + p;
    assert ']' !in hp[end + 1..];
  }

  lemma SplitPlain(ip: string, p: string)
    requires '[' !in ip && ']' !in ip && ':' !in ip && ':' !in p && '[' !in p && ']' !in p
    ensures SplitHostPort(ip + ":" + p) == Some((ip, p))
  {
    var hp := ip + ":" + p;
    LastIndexIs(ip, p);
    assert hp[0] == if ip == [] then ':' else ip[0];
    assert hp[..|ip|] == ip && hp[|ip| + 1..] == p;
    assert '[' !in hp && ']' !in hp;
  }

  // ----------------------------------------------------- each line read back

  /** The address text of `ip` and the printed port `p`. */
  function AddrText(ip: string, p: string): string { if ':' in ip then "[" + ip + "]" + ":" + p else ip + ":" + p }

  lemma AddrTextReadBack(ip: string, p: string)
    requires PlainIP(ip) && NoSpace(p) && ':' !in p && '[' !in p && ']' !in p
    ensures AddrText(ip, p) != [] && NoSpace(AddrText(ip, p))
    ensures SplitHostPort(AddrText(ip, p)) == Some((ip, p))
    ensures HasPrefix(AddrText(ip, p), "[") <==> ':' in ip
  {
    hide SplitHostPort;
    if ':' in ip {
      SplitBracketed(ip, p);
      assert AddrText(ip, p)[..1] == "[";
    } else {
      SplitPlain(ip, p);
      assert AddrText(ip, p)[0] == ip[0];
    }
  }

  lemma AddrReadBack(b: Backend)
    requires PlainIP(CleanIP(b.ip))
    ensures
      var a := FormatServerAddr(b);
      && a != [] && NoSpace(a)
      && SplitHostPort(a) == Some((CleanIP(b.ip), Text.Print(b.port)))
      && (HasPrefix(a, "[") <==> ':' in CleanIP(b.ip))
  {
    PrintedPlain(b.port);
    AddrTextReadBack(CleanIP(b.ip), Text.Print(b.port));
    assert FormatServerAddr(b) == AddrText(CleanIP(b.ip), Text.Print(b.port));
  }

  lemma {:induction false} WeightIs(words: seq<string>)
    ensures GivesWeight(words, WeightOf(words))
  {
    if words != [] {
      assert HasPrefix(words[0], WEIGHT) <==> SaysWeight(words[0]);
      if SaysWeight(words[0]) {
        assert FirstWeight(words, 0);
      } else {
        WeightIs(words[1..]);
        assert forall j :: 0 < j < |words| ==> words[j] == words[1..][j - 1];
        forall i | FirstWeight(words, i) ensures FirstWeight(words[1..], i - 1) {}
        forall i | FirstWeight(words[1..], i) ensures FirstWeight(words, i + 1) {}
      }
    }
  }

  /** The weight read is the one the words give, and there is only one. */
  lemma WeightIff(words: seq<string>, weight: int)
    ensures WeightOf(words) == weight <==> GivesWeight(words, weight)
  {
    WeightIs(words);
    if GivesWeight(words, weight) && exists i :: FirstWeight(words, i) {
      var i :| FirstWeight(words, i);
    }
  }

  lemma WeightReadBack(words: seq<string>, w: int)
    requires 1 <= w < 0x8000_0000_0000_0000
    requires exists i :: FirstWeight(words, i) && words[i] == "weight=" + Text.Print(w)
    ensures GivesWeight(words, w)
  {
    var i :| FirstWeight(words, i) && words[i] == "weight=" + Text.Print(w);
    assert words[i][7..] == Text.Print(w);
    AtoiPrinted(w);
    forall j | FirstWeight(words, j) ensures j == i {}
  }

  // ------------------------------------------------------------ server lines

  /** The line without what the parser trims. */
  lemma {:induction false} ServerTextShape(gap: string, addr: string, words: seq<Word>, semicolon: bool)
    requires AllSpace(gap) && addr != [] && NoSpace(addr) && Spaced(words)
    ensures
      var t := ServerText(gap, addr, words, semicolon);
      && Tight(t) && HasPrefix(t, SERVER) && !Blank(t)
      && TrimPrefix(t, SERVER) == gap + (addr + WordsText(words) + (if semicolon then ";" else ""))
  {
    var body, tail := addr + WordsText(words), if semicolon then ";" else "";
    var t := ServerText(gap, addr, words, semicolon);
    if words != [] { WordsTextEnd(words); }
    assert gap + body + tail == gap + (body + tail);
    assert t == SERVER + (gap + (body + tail));
    assert t[..|SERVER|] == SERVER && t[|SERVER|..] == gap + (body + tail);
    assert t[..1] == "s" && t[..2] == "se";
    assert t[|t| - 1] == (body + tail)[|body + tail| - 1];
  }

  lemma {:induction false} BodyFields(gap: string, addr: string, words: seq<Word>, semicolon: bool)
    requires AllSpace(gap) && addr != [] && NoSpace(addr) && Spaced(words)
    requires !semicolon ==> !HasSuffix(if words == [] then addr else words[|words| - 1].text, ";")
    ensures
      var tail := if semicolon then ";" else "";
      Fields(TrimSuffix(TrimSpace(gap + (addr + WordsText(words) + tail)), ";")) == [addr] + Texts(words)
  {
    var body, tail := addr + WordsText(words), if semicolon then ";" else "";
    var last := if words == [] then addr else words[|words| - 1].text;
    if words != [] { WordsTextEnd(words); }
    FieldsOfServer(addr, words);
    hide WordsText, Fields, Texts, TrimSpace, TrimSuffix, HasSuffix, Spaced;
    SuffixIs(last, ';');
    assert (body + tail)[0] == addr[0] && body[|body| - 1] == last[|last| - 1];
    TrimPadded(gap, body + tail, []);
    assert gap + (body + tail) + [] == gap + (body + tail);
    Untailed(body, semicolon);
  }

  lemma {:induction false} Untailed(body: string, semicolon: bool)
    requires body != [] && (!semicolon ==> body[|body| - 1] != ';')
    ensures TrimSuffix(body + (if semicolon then ";" else ""), ";") == body
  {
    SuffixIs(body, ';');
    SuffixIs(body + ";", ';');
    assert body + "" == body;
  }

  lemma {:induction false} ServerFields(gap: string, addr: string, words: seq<Word>, semicolon: bool)
    requires AllSpace(gap) && addr != [] && NoSpace(addr) && Spaced(words)
    requires !semicolon ==> !HasSuffix(if words == [] then addr else words[|words| - 1].text, ";")
    ensures
      var t := ServerText(gap, addr, words, semicolon);
      Fields(TrimSuffix(TrimSpace(TrimPrefix(t, SERVER)), ";")) == [addr] + Texts(words)
  {
    ServerTextShape(gap, addr, words, semicolon);
    BodyFields(gap, addr, words, semicolon);
  }

  lemma {:induction false} WrapNothing(n: int)
    requires -0x8000_0000 <= n < 0x8000_0000
    ensures Wrap32(n) == n
  {
  }

  lemma AtoiPrinted(n: int)
    requires -0x8000_0000_0000_0000 <= n < 0x8000_0000_0000_0000
    ensures Atoi(Text.Print(n)) == Some(n)
  {
    ParsePrint(n);
  }

  lemma {:induction false} ParseParts(gap: string, addr: string, words: seq<Word>, semicolon: bool, host: string,
      portText: string, port: int)
    requires AllSpace(gap) && addr != [] && NoSpace(addr) && Spaced(words)
    requires !semicolon ==> !HasSuffix(if words == [] then addr else words[|words| - 1].text, ";")
    requires SplitHostPort(addr) == Some((host, portText)) && Atoi(portText) == Some(port)
    ensures ParseServer(ServerText(gap, addr, words, semicolon)) ==
      var ip := if ':' in host && HasPrefix(addr, "[") then "[" + host + "]" else host;
      Some(Backend(ip, Wrap32(port), WeightOf(Texts(words))))
  {
    hide ServerText, Fields, TrimSpace, SplitHostPort, Atoi, Texts, WeightOf;
    ServerFields(gap, addr, words, semicolon);
    assert ([addr] + Texts(words))[1..] == Texts(words);
  }

  lemma {:induction false} ReadBackIs(b: Backend)
    ensures
      var ip := CleanIP(b.ip);
      ReadBack(b) == Backend(if ':' in ip then "[" + ip + "]" else ip, b.port, b.weight)
  {
  }

  /** A printed server line reads back as its backend, whatever words it has. */
  lemma ServerReadBack(b: Backend, gap: string, words: seq<Word>, semicolon: bool)
    requires WellFormed(ServerLine(b, gap, words, semicolon, [], []))
    ensures ParseServer(ServerText(gap, FormatServerAddr(b), words, semicolon)) == Some(ReadBack(b))
  {
    var a := FormatServerAddr(b);
    AddrReadBack(b);
    AddrEnd(b);
    AtoiPrinted(b.port);
    WrapNothing(b.port);
    WeightIff(Texts(words), b.weight);
    hide *;
    ParseParts(gap, a, words, semicolon, CleanIP(b.ip), Text.Print(b.port), b.port);
    ReadBackIs(b);
  }

  lemma AddrEnd(b: Backend)
    ensures !HasSuffix(FormatServerAddr(b), ";")
  {
    var a := FormatServerAddr(b);
    PrintedChars(b.port);
    assert a[|a| - 1] == Text.Print(b.port)[|Text.Print(b.port)| - 1];
    assert a[|a| - 1..] == [a[|a| - 1]];
  }

  /** What a line does to the reading. */
  function Meaning1(r: Reading, i: Item): Reading {
    match i
    case Noise(_) => r
    case Header(name, _, _, _, _, _, _) => r.(current := name)
    case ServerLine(b, _, _, _, _, _) => r.(result := Append(r.result, r.current, ReadBack(b)))
  }

  lemma ReadServer(r: Reading, i: Item)
    requires WellFormed(i) && i.ServerLine?
    ensures ReadLine(r, Print1(i)) == Meaning1(r, i)
  {
    hide GivesWeight, ServerText, FormatServerAddr, ParseServer, TrimSpace;
    var a := FormatServerAddr(i.backend);
    AddrReadBack(i.backend);
    ServerTextShape(i.gap, a, i.words, i.semicolon);
    TrimPadded(i.before, ServerText(i.gap, a, i.words, i.semicolon), i.after);
    ServerReadBack(i.backend, i.gap, i.words, i.semicolon);
  }

  /** A name that is not the word `w`, and what follows it, do not begin with `w` and a blank. */
  lemma {:induction false} NotKeyword(name: string, rest: string, w: string)
    requires NoSpace(name) && NoSpace(w) && name != w && ':' !in w && '{' !in w
    requires rest != [] ==> IsSpace(rest[0]) || rest[0] == ':' || rest[0] == '{'
    ensures !HasPrefix(name + rest, w + " ")
  {
    var t, p := name + rest, w + " ";
    PrefixChars(t, p);
    if |name| > |w| {
      assert t[|w|] == name[|w|] && p[|w|] == ' ';
    } else if |name| == |w| {
      var k :| 0 <= k < |w| && name[k] != w[k];
      assert t[k] != p[k];
    } else if rest != [] {
      assert w[|name|] in w;
      assert t[|name|] != p[|name|];
    }
  }

  lemma {:induction false} PrefixChars(s: string, p: string)
    ensures HasPrefix(s, p) ==> forall i :: 0 <= i < |p| ==> s[i] == p[i]
  {
    if HasPrefix(s, p) {
      forall i | 0 <= i < |p| ensures s[i] == p[i] { assert s[i] == s[..|p|][i]; }
    }
  }

  lemma {:induction false} SuffixIs(s: string, c: char)
    ensures HasSuffix(s, [c]) <==> s != [] && s[|s| - 1] == c
    ensures s != [] && s[|s| - 1] == c ==> TrimSuffix(s, [c]) == s[..|s| - 1]
  {
    if s != [] { assert s[|s| - 1..] == [s[|s| - 1]]; }
  }

  lemma {:induction false} PrefixIs(s: string, p: string)
    ensures HasPrefix(p + s, p) && TrimPrefix(p + s, p) == s
  {
    assert (p + s)[..|p|] == p && (p + s)[|p|..] == s;
  }

  lemma {:induction false} KeywordShape(s: string)
    requires s != []
    ensures
      var t := "upstream " + s;
      t[0] == 'u' && !Blank(t) && !HasPrefix(t, SERVER) && HasPrefix(t, UPSTREAM) && t[|t| - 1] == s[|s| - 1]
  {
    var t := "upstream " + s;
    PrefixIs(s, "upstream ");
    PrefixChars(t, SERVER);
    PrefixChars(t, "#");
    PrefixChars(t, "//");
  }

  lemma {:induction false} PlainShape(name: string, rest: string)
    requires name != [] && NoSpace(name) && !Comment(name) && name != "server"
    requires rest != [] && (IsSpace(rest[0]) || rest[0] == ':' || rest[0] == '{')
    ensures
      var t := name + rest;
      t[0] == name[0] && !Blank(t) && !HasPrefix(t, SERVER) && t[|t| - 1] == rest[|rest| - 1]
  {
    var t := name + rest;
    NotKeyword(name, rest, "server");
    assert "server" + " " == SERVER;
    assert t[0] == name[0] && t[1] == if |name| >= 2 then name[1] else rest[0];
    assert !HasPrefix(t, "#") by { assert t[..1] == [t[0]]; }
    assert !HasPrefix(t, "//") by { assert t[..2] == [t[0], t[1]]; }
  }

  lemma {:induction false} HeaderShape(name: string, keyword: bool, lead: string, gap: string, mark: string)
    requires GoodHeader(name, keyword, lead, gap, mark)
    ensures
      var t := HeaderText(name, keyword, lead, gap, mark);
      Tight(t) && !Blank(t) && !HasPrefix(t, SERVER) && IsHeader(t)
  {
    var t, rest := HeaderText(name, keyword, lead, gap, mark), gap + mark;
    SuffixIs(t, ':');
    SuffixIs(t, '{');
    if keyword {
      assert t == "upstream " + (lead + (name + gap + mark));
      KeywordShape(lead + (name + gap + mark));
    } else {
      assert t == name + rest;
      PlainShape(name, rest);
    }
  }

  lemma {:induction false} WithoutColon(start: string, name: string, gap: string, mark: string)
    requires name != [] && mark in {"", ":", "{"} && AllSpace(gap)
    requires mark == "" ==> gap == "" && name[|name| - 1] != ':'
    ensures TrimSuffix(start + (name + gap + mark), ":") == start + (name + gap + (if mark == "{" then "{" else ""))
  {
    var t := start + (name + gap + mark);
    SuffixIs(t, ':');
    if mark == "{" { assert t[|t| - 1] == '{'; } else if mark == "" { assert t[|t| - 1] == name[|name| - 1]; }
  }

  lemma {:induction false} WithoutKeyword(name: string, keyword: bool, lead: string, rest: string)
    requires NoSpace(name) && (rest != [] ==> IsSpace(rest[0]) || rest[0] == ':' || rest[0] == '{')
    requires !keyword ==> lead == "" && name != "upstream"
    ensures TrimPrefix((if keyword then "upstream " + lead else "") + (name + rest), UPSTREAM) == lead + (name + rest)
  {
    if keyword {
      assert "upstream " + lead + (name + rest) == UPSTREAM + (lead + (name + rest));
      PrefixIs(lead + (name + rest), UPSTREAM);
    } else {
      assert "" + (name + rest) == name + rest && lead + (name + rest) == name + rest;
      NotKeyword(name, rest, "upstream");
      assert "upstream" + " " == UPSTREAM;
    }
  }

  lemma {:induction false} WithoutBrace(lead: string, name: string, gap: string, brace: string)
    requires name != [] && NoSpace(name) && name[|name| - 1] != '{' && AllSpace(gap) && AllSpace(lead)
      && brace in {"", "{"}
    ensures TrimSpace(TrimSuffix(lead + (name + (gap + brace)), "{")) == name
  {
    var t := lead + (name + (gap + brace));
    SuffixIs(t, '{');
    if brace == "" {
      assert t == lead + name + gap;
      assert t[|t| - 1] == if gap == [] then name[|name| - 1] else gap[|gap| - 1];
    } else {
      assert t[..|t| - 1] == lead + name + gap;
    }
    TrimPadded(lead, name, gap);
  }

  lemma {:induction false} HeaderNameIs(name: string, keyword: bool, lead: string, gap: string, mark: string)
    requires GoodHeader(name, keyword, lead, gap, mark)
    ensures HeaderName(HeaderText(name, keyword, lead, gap, mark)) == name
  {
    hide TrimSuffix, TrimPrefix, TrimSpace;
    var brace := if mark == "{" then "{" else "";
    var start := if keyword then "upstream " + lead else "";
    WithoutColon(start, name, gap, mark);
    assert name + gap + brace == name + (gap + brace);
    WithoutKeyword(name, keyword, lead, gap + brace);
    WithoutBrace(lead, name, gap, brace);
  }

  lemma ReadHeader(r: Reading, i: Item)
    requires WellFormed(i) && i.Header?
    ensures ReadLine(r, Print1(i)) == r.(current := i.name)
  {
    hide GoodHeader, HeaderText, HeaderName, IsHeader, TrimSpace;
    HeaderShape(i.name, i.keyword, i.lead, i.gap, i.mark);
    HeaderNameIs(i.name, i.keyword, i.lead, i.gap, i.mark);
    TrimPadded(i.before, HeaderText(i.name, i.keyword, i.lead, i.gap, i.mark), i.after);
  }

  lemma {:induction false} PlainOnly(hp: string)
    requires SplitHostPort(hp).Some? && hp[0] != '['
    ensures HostPort(hp, SplitHostPort(hp).value.0, SplitHostPort(hp).value.1)
  {
    LastIndexHit(hp, ':');
    var i := LastIndex(hp, ':');
    assert hp == hp[..i] + ":" + hp[i + 1..];
  }

  lemma {:induction false} BracketedOnly(hp: string)
    requires SplitHostPort(hp).Some? && hp[0] == '['
    ensures HostPort(hp, SplitHostPort(hp).value.0, SplitHostPort(hp).value.1)
  {
    LastIndexHit(hp, ':');
    IndexHit(hp, ']');
    hide LastIndex, Index;
    var i, end := LastIndex(hp, ':'), Index(hp, ']');
    var host, port := hp[1..end], hp[i + 1..];
    assert hp == "[" + host + "]:" + port;
    assert hp[1..] == host + "]:" + port && hp[..end] == "[" + host && hp[end + 1..] == ":" + port;
  }

  lemma HostPortOnly(hp: string)
    requires SplitHostPort(hp).Some?
    ensures HostPort(hp, SplitHostPort(hp).value.0, SplitHostPort(hp).value.1)
  {
    hide HostPort;
    if hp[0] == '[' { BracketedOnly(hp); } else { PlainOnly(hp); }
  }

  /** A text splits into host and port exactly if it is one of the two forms. */
  lemma SplitHostPortIff(hp: string, host: string, port: string)
    ensures SplitHostPort(hp) == Some((host, port)) <==> HostPort(hp, host, port)
  {
    if SplitHostPort(hp) == Some((host, port)) { HostPortOnly(hp); }
    if HostPort(hp, host, port) {
      if hp == host + ":" + port && ':' !in host { SplitPlain(host, port); } else {
        assert hp == "[" + host + "]" + ":" + port;
        SplitBracketed(host, port);
      }
    }
  }

  lemma {:induction false} LastIndexHit(s: string, c: char)
    ensures var i := LastIndex(s, c); i >= 0 ==> s[i] == c && c !in s[i + 1..]
  {
    if s != [] && s[|s| - 1] != c {
      LastIndexHit(s[..|s| - 1], c);
      var i := LastIndex(s, c);
      if i >= 0 { assert s[i + 1..] == s[..|s| - 1][i + 1..] + [s[|s| - 1]]; }
    }
  }

  lemma {:induction false} IndexHit(s: string, c: char)
    ensures var i := Index(s, c); i >= 0 ==> s[i] == c && c !in s[..i]
  {
    if s != [] && s[0] != c {
      IndexHit(s[1..], c);
      var i := Index(s, c);
      if i >= 0 { assert s[..i] == [s[0]] + s[1..][..i - 1]; }
    }
  }

  lemma {:induction false} PrefixRest(s: string, p: string)
    ensures HasPrefix(s, p) ==> exists rest :: s == p + rest
  {
    if HasPrefix(s, p) { assert s == p + s[|p|..]; }
  }

  lemma {:induction false} ReadComment(r: Reading, before: string, core: string, after: string)
    requires AllSpace(before) && AllSpace(after) && Tight(core) && (Comment(core) || Unknown(core))
    ensures ReadLine(r, before + core + after) == r
  {
    TrimPadded(before, core, after);
    PrefixRest(core, SERVER);
    PrefixRest(core, UPSTREAM);
    assert core[|core| - 1..] == [core[|core| - 1]];
  }

  lemma {:induction false} ReadUnreadable(r: Reading, before: string, core: string, after: string)
    requires AllSpace(before) && AllSpace(after) && Tight(core) && Unreadable(core)
    ensures ReadLine(r, before + core + after) == r
  {
    hide TrimSpace, Fields, SplitHostPort, HostPort, ServerText, Atoi;
    TrimPadded(before, core, after);
    var gap, addr, words :|
      && core == ServerText(gap, addr, words, true) && AllSpace(gap) && Spaced(words) && addr != [] && NoSpace(addr)
      && forall host, port, n :: HostPort(addr, host, port) ==> Atoi(port) != Some(n);
    ServerTextShape(gap, addr, words, true);
    ServerFields(gap, addr, words, true);
    if SplitHostPort(addr).Some? { HostPortOnly(addr); }
  }

  lemma {:induction false} ReadNoise(r: Reading, text: string)
    requires Ignorable(text)
    ensures ReadLine(r, text) == r
  {
    hide ReadLine, Comment, Unknown, Unreadable, Tight;
    if AllSpace(text) {
      ReadBlank(r, text);
    } else {
      var before, core, after :|
        && text == before + core + after && AllSpace(before) && AllSpace(after) && Tight(core)
        && (Comment(core) || Unknown(core) || Unreadable(core));
      if Unreadable(core) { ReadUnreadable(r, before, core, after); } else { ReadComment(r, before, core, after); }
    }
  }

  lemma {:induction false} ReadBlank(r: Reading, text: string)
    requires AllSpace(text)
    ensures ReadLine(r, text) == r
  {
    Trimmed(text, [], [], IsSpace);
    assert text + [] + [] == text;
  }

  lemma ReadItem(r: Reading, i: Item)
    requires WellFormed(i)
    ensures ReadLine(r, Print1(i)) == Meaning1(r, i)
  {
    match i
    case Noise(text) => ReadNoise(r, text);
    case Header(_, _, _, _, _, _, _) => ReadHeader(r, i);
    case ServerLine(_, _, _, _, _, _) => ReadServer(r, i);
  }

  // ------------------------------------------------------- the whole listing

  function Meaning(items: seq<Item>): Reading {
    if items == [] then Reading("", map[]) else Meaning1(Meaning(items[..|items| - 1]), items[|items| - 1])
  }

  ghost predicate AllWellFormed(items: seq<Item>) { forall i :: 0 <= i < |items| ==> WellFormed(items[i]) }

  lemma {:induction false} ReadPrinted(items: seq<Item>)
    requires AllWellFormed(items)
    ensures ReadLines(Printed(items)) == Meaning(items)
  {
    if items != [] {
      var n := |items| - 1;
      ReadPrinted(items[..n]);
      var lines := Printed(items);
      assert lines[..|lines| - 1] == Printed(items[..n]) && lines[|lines| - 1] == Print1(items[n]);
      ReadItem(Meaning(items[..n]), items[n]);
    }
  }

  lemma {:induction false} SplitLine(line: string, sep: char, rest: string)
    requires sep !in line
    ensures Split(line + [sep] + rest, sep) == [line] + Split(rest, sep)
  {
    var s := line + [sep] + rest;
    if line == [] {
      assert s[0] == sep && s[1..] == rest;
    } else {
      assert s[0] == line[0] && line[0] in line;
      assert s[1..] == line[1..] + [sep] + rest;
      SplitLine(line[1..], sep, rest);
      assert line == [line[0]] + line[1..];
    }
  }

  lemma {:induction false} SplitWhole(line: string, sep: char)
    requires sep !in line
    ensures Split(line, sep) == [line]
  {
    if line != [] {
      assert line[0] in line;
      SplitWhole(line[1..], sep);
      assert line == [line[0]] + line[1..];
    }
  }

  lemma {:induction false} SplitJoin(lines: seq<string>, sep: char)
    requires lines != [] && forall i :: 0 <= i < |lines| ==> sep !in lines[i]
    ensures Split(Join(lines, sep), sep) == lines
  {
    if |lines| == 1 {
      SplitWhole(lines[0], sep);
    } else {
      SplitJoin(lines[1..], sep);
      SplitLine(lines[0], sep, Join(lines[1..], sep));
      assert lines == [lines[0]] + lines[1..];
    }
  }

  /** An upstream of a listing. */
  datatype Block = Block(name: string, backends: seq<Backend>)

  /** The headers and servers of a listing, without noise, white space and header style. */
  datatype Token = Start(name: string) | Member(backend: Backend)

  function Tokens(items: seq<Item>): seq<Token> {
    if items == [] then []
    else
      var rest := Tokens(items[..|items| - 1]);
      match items[|items| - 1]
      case Noise(_) => rest
      case Header(name, _, _, _, _, _, _) => rest + [Start(name)]
      case ServerLine(b, _, _, _, _, _) => rest + [Member(b)]
  }

  function Members(bs: seq<Backend>): seq<Token> { seq(|bs|, i requires 0 <= i < |bs| => Member(bs[i])) }

  function Layout(blocks: seq<Block>): seq<Token> {
    if blocks == [] then []
    else
      var n := |blocks| - 1;
      Layout(blocks[..n]) + [Start(blocks[n].name)] + Members(blocks[n].backends)
  }

  function TokenMeaning(ts: seq<Token>): Reading {
    if ts == [] then Reading("", map[])
    else
      var r := TokenMeaning(ts[..|ts| - 1]);
      match ts[|ts| - 1]
      case Start(name) => r.(current := name)
      case Member(b) => r.(result := Append(r.result, r.current, ReadBack(b)))
  }

  lemma {:induction false} MeaningOfTokens(items: seq<Item>)
    ensures Meaning(items) == TokenMeaning(Tokens(items))
  {
    if items != [] {
      var n := |items| - 1;
      MeaningOfTokens(items[..n]);
      var ts := Tokens(items);
      if !items[n].Noise? { assert ts[..|ts| - 1] == Tokens(items[..n]); }
    }
  }

  function ReadBacks(bs: seq<Backend>): seq<Backend> { seq(|bs|, i requires 0 <= i < |bs| => ReadBack(bs[i])) }

  lemma {:induction false} MembersMean(ts: seq<Token>, name: string, bs: seq<Backend>)
    requires TokenMeaning(ts).current == name && name !in TokenMeaning(ts).result
    ensures
      var r := TokenMeaning(ts + Members(bs));
      && r.current == name
      && r.result == if bs == [] then TokenMeaning(ts).result else TokenMeaning(ts).result[name := ReadBacks(bs)]
  {
    hide ReadBack, ReadBacks;
    if bs == [] {
      assert ts + Members(bs) == ts;
    } else {
      var n := |bs| - 1;
      MembersMean(ts, name, bs[..n]);
      var all := ts + Members(bs);
      assert all[..|all| - 1] == ts + Members(bs[..n]) && all[|all| - 1] == Member(bs[n]);
      AppendNext(TokenMeaning(ts).result, TokenMeaning(ts + Members(bs[..n])).result, name, bs);
    }
  }

  lemma AppendNext(m: Server, m': Server, name: string, bs: seq<Backend>)
    requires bs != [] && name !in m
    requires m' == if bs[..|bs| - 1] == [] then m else m[name := ReadBacks(bs[..|bs| - 1])]
    ensures Append(m', name, ReadBack(bs[|bs| - 1])) == m[name := ReadBacks(bs)]
  {
    var n := |bs| - 1;
    assert ReadBacks(bs) == ReadBacks(bs[..n]) + [ReadBack(bs[n])];
  }

  ghost predicate DistinctBlocks(blocks: seq<Block>) {
    && (forall i :: 0 <= i < |blocks| ==> blocks[i].backends != [])
    && (forall i, j :: 0 <= i < j < |blocks| ==> blocks[i].name != blocks[j].name)
  }

  function Expected(blocks: seq<Block>): Server {
    if blocks == [] then map[]
    else var n := |blocks| - 1; Expected(blocks[..n])[blocks[n].name := ReadBacks(blocks[n].backends)]
  }

  lemma {:induction false} ExpectedNames(blocks: seq<Block>, name: string)
    ensures name in Expected(blocks) <==> exists i :: 0 <= i < |blocks| && blocks[i].name == name
  {
    if blocks != [] {
      var n := |blocks| - 1;
      ExpectedNames(blocks[..n], name);
      if i :| 0 <= i < |blocks| && blocks[i].name == name {
        if i < n { assert blocks[..n][i].name == name; }
      }
      if i :| 0 <= i < |blocks[..n]| && blocks[..n][i].name == name { assert blocks[i].name == name; }
    }
  }

  lemma {:induction false} LayoutMeans(blocks: seq<Block>)
    requires DistinctBlocks(blocks)
    ensures TokenMeaning(Layout(blocks)).result == Expected(blocks)
  {
    if blocks != [] {
      var n := |blocks| - 1;
      LayoutMeans(blocks[..n]);
      var ts := Layout(blocks[..n]) + [Start(blocks[n].name)];
      assert ts[..|ts| - 1] == Layout(blocks[..n]);
      ExpectedNames(blocks[..n], blocks[n].name);
      MembersMean(ts, blocks[n].name, blocks[n].backends);
    }
  }

  lemma {:induction false} ExpectedAt(blocks: seq<Block>, i: nat)
    requires DistinctBlocks(blocks) && i < |blocks|
    ensures blocks[i].name in Expected(blocks) && Expected(blocks)[blocks[i].name] == ReadBacks(blocks[i].backends)
  {
    var n := |blocks| - 1;
    if i < n { ExpectedAt(blocks[..n], i); }
  }

  lemma {:induction false} TrimNothing(s: string, cut: char -> bool)
    requires s != [] ==> !cut(s[0]) && !cut(s[|s| - 1])
    ensures Trim(s, cut) == s
  {
  }

  /** The address read back names the same backend. */
  lemma ReadBackSame(b: Backend)
    requires PlainIP(CleanIP(b.ip))
    ensures BackendKey(ReadBack(b)) == BackendKey(b) && ReadBack(b).port == b.port && ReadBack(b).weight == b.weight
  {
    var ip := CleanIP(b.ip);
    if ':' in ip {
      var s := "[" + ip + "]";
      TrimCore(s);
      BracketsTrimmed(ip);
    } else {
      TrimCore(ip);
      TrimNothing(ip, IsBracket);
    }
  }

  lemma BracketsTrimmed(ip: string)
    requires PlainIP(ip)
    ensures Trim("[" + ip + "]", IsBracket) == ip
  {
    var s := "[" + ip + "]";
    assert s[1..] == ip + "]";
    assert TrimLeft(ip + "]", IsBracket) == ip + "]" by { assert (ip + "]")[0] == ip[0]; }
    assert (ip + "]")[..|ip|] == ip;
    assert TrimRight(ip, IsBracket) == ip;
  }

  /** Round trip: a listing printed with any noise, white space and header style reads back as the same upstreams,
      their backends in order, with the same keys, ports and weights. */
  lemma {:induction false} ListingRoundTrip(blocks: seq<Block>, items: seq<Item>)
    requires DistinctBlocks(blocks) && items != [] && AllWellFormed(items) && Tokens(items) == Layout(blocks)
    requires forall i :: 0 <= i < |Printed(items)| ==> '\n' !in Printed(items)[i]
    ensures
      var m := ReadLines(Split(Join(Printed(items), '\n'), '\n')).result;
      && (forall name :: name in m <==> exists i :: 0 <= i < |blocks| && blocks[i].name == name)
      && (forall i :: 0 <= i < |blocks| ==> blocks[i].name in m && SameBackends(m[blocks[i].name], blocks[i].backends))
  {
    assert Printed(items) != [];
    SplitJoin(Printed(items), '\n');
    ReadPrinted(items);
    MeaningOfTokens(items);
    LayoutMeans(blocks);
    forall name ensures name in Expected(blocks) <==> exists i :: 0 <= i < |blocks| && blocks[i].name == name {
      ExpectedNames(blocks, name);
    }
    forall i | 0 <= i < |blocks|
      ensures blocks[i].name in Expected(blocks) && SameBackends(Expected(blocks)[blocks[i].name], blocks[i].backends)
    {
      ExpectedAt(blocks, i);
      var bs := blocks[i].backends;
      forall j | 0 <= j < |bs|
        ensures BackendKey(ReadBacks(bs)[j]) == BackendKey(bs[j]) && ReadBacks(bs)[j].port == bs[j].port
          && ReadBacks(bs)[j].weight == bs[j].weight
      {
        LaidOut(blocks, i, j);
        TokensWellFormed(items, bs[j]);
        ReadBackSame(bs[j]);
      }
    }
  }

  lemma {:induction false} LaidOut(blocks: seq<Block>, i: nat, j: nat)
    requires i < |blocks| && j < |blocks[i].backends|
    ensures Member(blocks[i].backends[j]) in Layout(blocks)
  {
    var n := |blocks| - 1;
    if i < n { LaidOut(blocks[..n], i, j); } else {
      assert Members(blocks[n].backends)[j] == Member(blocks[i].backends[j]);
      assert Member(blocks[i].backends[j]) in Members(blocks[n].backends);
    }
  }

  lemma {:induction false} TokensWellFormed(items: seq<Item>, b: Backend)
    requires AllWellFormed(items) && Member(b) in Tokens(items)
    ensures PlainIP(CleanIP(b.ip))
  {
    var n := |items| - 1;
    if Member(b) in Tokens(items[..n]) { TokensWellFormed(items[..n], b); } else { assert WellFormed(items[n]); }
  }

  ghost predicate SameBackends(a: seq<Backend>, b: seq<Backend>) {
    |a| == |b| && forall j :: 0 <= j < |b| ==>
      BackendKey(a[j]) == BackendKey(b[j]) && a[j].port == b[j].port && a[j].weight == b[j].weight
  }

  /** So the parsed listing has the content that was printed. */
  lemma {:induction false} SameContent(a: seq<Backend>, b: seq<Backend>)
    requires SameBackends(a, b)
    ensures ContentOf(a) == ContentOf(b)
  {
    if a != [] { SameContent(a[1..], b[1..]); }
  }
}
