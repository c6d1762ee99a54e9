/**
 The request line: safe names, word extraction, parsing and printing,
 and the names that the server gives to its temporary files.
 */
module Requests {
  import opened Text

  const MAX_REQUEST_LINE: nat := 4096
  const MAX_UPLOAD_BYTES: nat := 16 * 1024 * 1024 * 1024

  datatype Request = Get(filename: string) | Put(filename: string, size: nat)

  datatype Parsed = Accepted(request: Request) | Rejected(reason: string)

  // ---------------------------------------------------------------------------
  // File names

  predicate AllowedInName(c: char) {
    'a' <= c <= 'z' || 'A' <= c <= 'Z' || '0' <= c <= '9' || c == '.' || c == '_' || c == '-'
  }

  predicate SafeFilename(name: string) {
    && 0 < |name| <= 255
    && name != "." && name != ".."
    && forall i | 0 <= i < |name| :: AllowedInName(name[i])
  }

  /** `is_safe_filename`, the same in both programs. */
  method IsSafeFilename(filename: string) returns (ok: bool)
    ensures ok == SafeFilename(filename)
  {
    if filename == "" || |filename| > 255 || filename == "." || filename == ".." {
      return false;
    }
    for i := 0 to |filename|
      invariant forall k | 0 <= k < i :: AllowedInName(filename[k])
    {
      if !AllowedInName(filename[i]) {
        return false;
      }
    }
    return true;
  }

  // ---------------------------------------------------------------------------
  // Words, as `stream >> word` extracts them

  predicate IsSpace(c: char) {
    c == ' ' || c == '\t' || c == '\n' || c == '\U{0B}' || c == '\U{0C}' || c == '\r'
  }

  /** No white space inside, and not empty. */
  predicate IsWord(s: string) {
    s != "" && forall i | 0 <= i < |s| :: !IsSpace(s[i])
  }

  function SkipSpaces(s: string): (t: string)
    ensures |t| <= |s|
    ensures t != "" ==> !IsSpace(t[0])
  {
    if s != "" && IsSpace(s[0]) then SkipSpaces(s[1..]) else s
  }

  function WordLength(s: string): (n: nat)
    ensures n <= |s|
    ensures forall i | 0 <= i < n :: !IsSpace(s[i])
    ensures n < |s| ==> IsSpace(s[n])
  {
    if s == "" || IsSpace(s[0]) then 0 else 1 + WordLength(s[1..])
  }

  /** One extraction: the word, which is empty when the extraction fails, and what is left of the stream. */
  function NextWord(s: string): (r: (string, string))
    ensures r.0 != "" ==> IsWord(r.0) && |r.1| < |s|
  {
    var t := SkipSpaces(s);
    var n := WordLength(t);
    (t[..n], t[n..])
  }

  function ParseRequest(line: string): (r: Parsed)
    ensures r.Accepted? ==> ValidRequest(r.request)
  {
    var (operation, rest) := NextWord(line);
    var (filename, afterName) := NextWord(rest);
    if operation == "" || filename == "" then Rejected("bad-request")
    else if !SafeFilename(filename) then Rejected("unsafe-filename")
    else
      var (third, afterThird) := NextWord(afterName);
      if operation == "GET" then
        if third != "" then Rejected("bad-request") else Accepted(Get(filename))
      else if operation != "PUT" || third == "" || NextWord(afterThird).0 != "" then Rejected("bad-request")
      else
        match Uint64Of(third)
        case None => Rejected("invalid-size")
        case Some(size) => if size > MAX_UPLOAD_BYTES then Rejected("invalid-size") else Accepted(Put(filename, size))
  }

  /** The requests that a client may make. */
  predicate ValidRequest(r: Request) {
    SafeFilename(r.filename) && (r.Put? ==> r.size <= MAX_UPLOAD_BYTES)
  }

  /** The request line that the client sends, without its newline. */
  function PrintRequest(r: Request): string {
    match r
    case Get(name) => "GET " + name
    case Put(name, size) => "PUT " + name + " " + ToDecimal(size)
  }

  // ---------------------------------------------------------------------------
  // What parsing means: only the words of the line matter, never the spacing

  function Words(line: string): seq<string>
    decreases |line|
  {
    var (word, rest) := NextWord(line);
    if word == "" then [] else [word] + Words(rest)
  }

  /** Words separated by a run of white space each, with white space allowed at both ends. */
  function Spread(words: seq<string>, gaps: seq<string>): string
    requires |gaps| == |words| + 1
  {
    if words == [] then gaps[0] else gaps[0] + words[0] + Spread(words[1..], gaps[1..])
  }

  ghost predicate Separating(gaps: seq<string>) {
    && (forall g | g in gaps :: forall i | 0 <= i < |g| :: IsSpace(g[i]))
    && (forall k | 0 < k < |gaps| - 1 :: gaps[k] != "")
  }

  lemma {:induction false} SkipsGap(gap: string, rest: string)
    requires forall i | 0 <= i < |gap| :: IsSpace(gap[i])
    ensures SkipSpaces(gap + rest) == SkipSpaces(rest)
  {
    if gap == "" {
      assert gap + rest == rest;
    } else {
      assert (gap + rest)[1..] == gap[1..] + rest;
      SkipsGap(gap[1..], rest);
    }
  }

  lemma {:induction false} TakesWord(word: string, rest: string)
    requires forall i | 0 <= i < |word| :: !IsSpace(word[i])
    requires rest == "" || IsSpace(rest[0])
    ensures WordLength(word + rest) == |word|
  {
    if word == "" {
      assert word + rest == rest;
    } else {
      assert (word + rest)[1..] == word[1..] + rest;
      TakesWord(word[1..], rest);
    }
  }

  lemma NextWordAfterGap(gap: string, word: string, rest: string)
    requires forall i | 0 <= i < |gap| :: IsSpace(gap[i])
    requires IsWord(word)
    requires rest == "" || IsSpace(rest[0])
    ensures NextWord(gap + (word + rest)) == (word, rest)
  {
    SkipsGap(gap, word + rest);
    TakesWord(word, rest);
  }

  /** Splitting undoes any spacing. */
  lemma {:induction false} WordsOfSpread(words: seq<string>, gaps: seq<string>)
    requires |gaps| == |words| + 1 && Separating(gaps)
    requires forall w | w in words :: IsWord(w)
    ensures Words(Spread(words, gaps)) == words
  {
    if words == [] {
      SkipsGap(gaps[0], "");
      assert gaps[0] + "" == gaps[0];
    } else {
      var rest := Spread(words[1..], gaps[1..]);
      assert gaps[0] + words[0] + rest == gaps[0] + (words[0] + rest);
      assert rest == "" || IsSpace(rest[0]) by {
        assert gaps[1] in gaps;
      }
      NextWordAfterGap(gaps[0], words[0], rest);
      assert Separating(gaps[1..]);
      WordsOfSpread(words[1..], gaps[1..]);
    }
  }

  lemma WordsHead(line: string)
    ensures NextWord(line).0 == "" ==> Words(line) == []
    ensures NextWord(line).0 != "" ==> Words(line) == [NextWord(line).0] + Words(NextWord(line).1)
  {
  }

  lemma FirstWords(line: string)
    ensures var (a, r1) := NextWord(line);
            var (b, r2) := NextWord(r1);
            var (c, r3) := NextWord(r2);
            var d := NextWord(r3).0;
            Words(line) == if a == "" then [] else if b == "" then [a] else if c == "" then [a, b]
                           else if d == "" then [a, b, c] else [a, b, c, d] + Words(r3)[1..]
  {
    var (a, r1) := NextWord(line);
    var (b, r2) := NextWord(r1);
    var (c, r3) := NextWord(r2);
    WordsHead(line);
    WordsHead(r1);
    WordsHead(r2);
    WordsHead(r3);
    hide NextWord, Words;
  }

  /** The whole decision table of the parser, in terms of the words of the line. */
  lemma ParseRequestExact(line: string)
    ensures var w := Words(line);
            ParseRequest(line) ==
            if |w| < 2 then Rejected("bad-request")
            else if !SafeFilename(w[1]) then Rejected("unsafe-filename")
            else if w[0] == "GET" && |w| == 2 then Accepted(Get(w[1]))
            else if w[0] != "PUT" || |w| != 3 then Rejected("bad-request")
            else if Uint64Of(w[2]).None? || Uint64Of(w[2]).value > MAX_UPLOAD_BYTES then Rejected("invalid-size")
            else Accepted(Put(w[1], Uint64Of(w[2]).value))
  {
    FirstWords(line);
  }

  lemma SafeFilenameIsWord(name: string)
    requires SafeFilename(name)
    ensures IsWord(name) && '\n' !in name
  {
    forall i | 0 <= i < |name|
      ensures !IsSpace(name[i])
    {
      assert AllowedInName(name[i]);
    }
  }

  lemma DecimalIsWord(n: nat)
    ensures IsWord(ToDecimal(n)) && '\n' !in ToDecimal(n) && '-' !in ToDecimal(n) && '.' !in ToDecimal(n)
  {
    var s := ToDecimal(n);
    forall i | 0 <= i < |s|
      ensures !IsSpace(s[i]) && s[i] != '-' && s[i] != '.'
    {
      assert IsDigit(s[i]);
    }
  }

  lemma OneWord(a: string)
    requires IsWord(a)
    ensures Words(a) == [a]
  {
    NextWordAfterGap("", a, "");
    assert "" + (a + "") == a;
    WordsHead(a);
  }

  lemma WordThen(a: string, rest: string)
    requires IsWord(a)
    ensures Words(a + " " + rest) == [a] + Words(rest)
  {
    NextWordAfterGap("", a, " " + rest);
    assert "" + (a + (" " + rest)) == a + " " + rest;
    WordsHead(a + " " + rest);
    SkipsGap(" ", rest);
  }

  lemma ThreeWords(a: string, b: string, c: string)
    requires IsWord(a) && IsWord(b) && IsWord(c)
    ensures Words(a + " " + (b + " " + c)) == [a, b, c]
  {
    WordThen(a, b + " " + c);
    WordThen(b, c);
    OneWord(c);
  }

  function RequestWords(r: Request): seq<string> {
    match r
    case Get(name) => ["GET", name]
    case Put(name, size) => ["PUT", name, ToDecimal(size)]
  }

  lemma PrintedLine(r: Request)
    ensures r.Get? ==> PrintRequest(r) == "GET" + " " + r.filename
    ensures r.Put? ==> PrintRequest(r) == "PUT" + " " + (r.filename + " " + ToDecimal(r.size))
  {
  }

  lemma PrintedWords(r: Request)
    requires SafeFilename(r.filename)
    ensures Words(PrintRequest(r)) == RequestWords(r)
  {
    PrintedLine(r);
    SafeFilenameIsWord(r.filename);
    var verb := RequestWords(r)[0];
    if r.Get? {
      OneWord(r.filename);
      WordThen(verb, r.filename);
    } else {
      DecimalIsWord(r.size);
      ThreeWords(verb, r.filename, ToDecimal(r.size));
    }
  }

  lemma PrintedLineFits(r: Request)
    requires ValidRequest(r)
    ensures '\n' !in PrintRequest(r) && 0 < |PrintRequest(r)| <= MAX_REQUEST_LINE
  {
    SafeFilenameIsWord(r.filename);
    if r.Put? {
      DecimalIsWord(r.size);
      assert r.size < Pow10(11);
      DecimalLength(r.size, 11);
    }
  }

  /** Every valid request is one short line that the server reads back as the same request. */
  lemma RequestRoundTrip(r: Request)
    requires ValidRequest(r)
    ensures ParseRequest(PrintRequest(r)) == Accepted(r)
    ensures '\n' !in PrintRequest(r) && 0 < |PrintRequest(r)| <= MAX_REQUEST_LINE
  {
    PrintedLineFits(r);
    PrintedWords(r);
    ParseRequestExact(PrintRequest(r));
  }

  /** A line is accepted exactly when it spells some valid request, in any spacing and with any leading zeros. */
  lemma AcceptedLineReprints(line: string)
    requires ParseRequest(line).Accepted?
    ensures var r := ParseRequest(line).request;
            ParseRequest(PrintRequest(r)) == Accepted(r)
            && |Words(line)| == (if r.Get? then 2 else 3)
            && Words(PrintRequest(r)) == if r.Get? then Words(line) else Words(line)[2 := ToDecimal(r.size)]
  {
    ParseRequestExact(line);
    var r := ParseRequest(line).request;
    RequestRoundTrip(r);
    PrintedWords(r);
  }

  // ---------------------------------------------------------------------------
  // Temporary names

  /** The name under which a connection stores an upload until it is complete. */
  function TempName(fd: nat, sequence: nat): string {
    ".upload-" + ToDecimal(fd) + "-" + ToDecimal(sequence) + ".part"
  }

  ghost predicate IsTempName(name: string) {
    exists fd: nat, sequence: nat :: name == TempName(fd, sequence)
  }

  lemma SameField(a: string, a': string, separator: char, rest: string, rest': string)
    requires separator !in a && separator !in a'
    requires a + [separator] + rest == a' + [separator] + rest'
    ensures a == a' && rest == rest'
  {
    var s := a + [separator] + rest;
    assert s[..|a|] == a && s[..|a'|] == a';
    FindIs(s, separator, |a|);
    FindIs(s, separator, |a'|);
    assert s[|a| + 1..] == rest && s[|a'| + 1..] == rest';
  }

  lemma TempNameFields(fd: nat, sequence: nat)
    ensures TempName(fd, sequence)[8..] == ToDecimal(fd) + ['-'] + (ToDecimal(sequence) + ['.'] + "part")
    ensures '-' !in ToDecimal(fd) && '.' !in ToDecimal(sequence)
  {
    DecimalIsWord(fd);
    DecimalIsWord(sequence);
  }

  /** Two uploads never share a temporary name unless both the descriptor and the sequence number agree. */
  lemma TempNameInjective(fd: nat, sequence: nat, fd': nat, sequence': nat)
    requires TempName(fd, sequence) == TempName(fd', sequence')
    ensures fd == fd' && sequence == sequence'
  {
    TempNameFields(fd, sequence);
    TempNameFields(fd', sequence');
    var a, b := ToDecimal(fd), ToDecimal(sequence);
    var a', b' := ToDecimal(fd'), ToDecimal(sequence');
    SameField(a, a', '-', b + ['.'] + "part", b' + ['.'] + "part");
    SameField(b, b', '.', "part", "part");
    DecimalInjective(fd, fd');
    DecimalInjective(sequence, sequence');
  }
}
