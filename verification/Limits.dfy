/**
 The alphabet, the limits and the fixed texts of the protocol, written out: what the definitions that carry a name in
 the other modules come to, on both sides of each limit.
 */
module Limits {
  import opened Text
  import opened Requests
  import opened Connection
  import opened Lifecycle
  import opened Peer
  import opened ClientProgram

  // ---------------------------------------------------------------------------
  // File names

  const NAME_CHARACTERS: string :=
    "abcdefghijklmnopqrstuvwxyz" + "ABCDEFGHIJKLMNOPQRSTUVWXYZ" + "0123456789" + "._-"

  lemma SmallLetters(c: char)
    ensures c in "abcdefghijklmnopqrstuvwxyz" <==> 97 <= c as int <= 122
  {
    var s := "abcdefghijklmnopqrstuvwxyz";
    assert forall i | 0 <= i < |s| :: s[i] as int == 97 + i;
    if 97 <= c as int <= 122 {
      assert s[c as int - 97] == c;
    }
  }

  lemma CapitalLetters(c: char)
    ensures c in "ABCDEFGHIJKLMNOPQRSTUVWXYZ" <==> 65 <= c as int <= 90
  {
    var s := "ABCDEFGHIJKLMNOPQRSTUVWXYZ";
    assert forall i | 0 <= i < |s| :: s[i] as int == 65 + i;
    if 65 <= c as int <= 90 {
      assert s[c as int - 65] == c;
    }
  }

  lemma Digits(c: char)
    ensures c in "0123456789" <==> 48 <= c as int <= 57
  {
    var s := "0123456789";
    assert forall i | 0 <= i < |s| :: s[i] as int == 48 + i;
    if 48 <= c as int <= 57 {
      assert s[c as int - 48] == c;
    }
  }

  lemma NameCharacter(c: char)
    ensures AllowedInName(c) <==> c in NAME_CHARACTERS
  {
    SmallLetters(c);
    CapitalLetters(c);
    Digits(c);
    InFour(c, "abcdefghijklmnopqrstuvwxyz", "ABCDEFGHIJKLMNOPQRSTUVWXYZ", "0123456789", "._-");
  }

  lemma InFour(x: char, a: string, b: string, c: string, d: string)
    ensures x in a + b + c + d <==> x in a || x in b || x in c || x in d
  {
  }

  /** The safe names, without the words of the program. */
  lemma {:induction false} SafeNames(name: string)
    ensures SafeFilename(name) <==>
              1 <= |name| <= 255 && name != "." && name != ".." && forall c | c in name :: c in NAME_CHARACTERS
  {
    hide AllowedInName;
    forall i | 0 <= i < |name|
      ensures AllowedInName(name[i]) <==> name[i] in NAME_CHARACTERS
    {
      NameCharacter(name[i]);
    }
    hide NAME_CHARACTERS;
    assert forall i | 0 <= i < |name| :: name[i] in name;
  }

  /** No accepted request leads out of the storage root. */
  lemma {:induction false} AcceptedNamesStayInside(line: string)
    requires ParseRequest(line).Accepted?
    ensures var name := ParseRequest(line).request.filename;
            '/' !in name && '\\' !in name && '\0' !in name && name != "" && name != "." && name != ".."
  {
    hide ParseRequest;
  }

  /** A name that is not safe is refused, whatever is asked for. */
  lemma {:induction false} UnsafeIsRefused(name: string)
    requires IsWord(name) && !SafeFilename(name)
    ensures ParseRequest("GET" + " " + name) == Rejected("unsafe-filename")
  {
    hide ParseRequest, SafeFilename, Words, IsWord;
    GetWords(name);
    ParseRequestExact("GET" + " " + name);
  }

  lemma GetWords(name: string)
    requires IsWord(name)
    ensures Words("GET" + " " + name) == ["GET", name]
  {
    hide Words;
    OneWord(name);
    WordThen("GET", name);
  }

  lemma OutsideIsRefused()
    ensures ParseRequest("GET ../outside") == Rejected("unsafe-filename")
  {
    hide ParseRequest;
    var name := "../outside";
    assert name[2] == '/' && !AllowedInName('/');
    UnsafeIsRefused(name);
    assert "GET" + " " + name == "GET ../outside";
  }

  // ---------------------------------------------------------------------------
  // Words

  /** White space is what the "C" locale takes for it: tab, line feed, vertical tab, form feed, return and space. */
  lemma SpaceCharacters(c: char)
    ensures IsSpace(c) <==> c as int in {9, 10, 11, 12, 13, 32}
  {
  }

  /** A line that ends in a return is accepted like one that does not. */
  lemma ReturnIsIgnored(name: string)
    requires SafeFilename(name)
    ensures ParseRequest("GET " + name + "\r") == Accepted(Get(name))
  {
    SafeFilenameIsWord(name);
    var line := "GET " + name + "\r";
    assert IsWord("GET");
    NextWordAfterGap("", "GET", " " + name + "\r");
    assert "" + ("GET" + (" " + name + "\r")) == line;
    NextWordAfterGap(" ", name, "\r");
    assert " " + (name + "\r") == " " + name + "\r";
    SkipsGap("\r", "");
    assert "\r" + "" == "\r";
  }

  // ---------------------------------------------------------------------------
  // Numbers

  /** Decimal digits are the usual ones, the most significant first. */
  lemma DecimalDigits(n: nat, d: nat)
    requires d < 10
    ensures ToDecimal(d) == ["0123456789"[d]]
    ensures n > 0 ==> ToDecimal(10 * n + d) == ToDecimal(n) + ["0123456789"[d]]
  {
    assert (10 * n + d) / 10 == n && (10 * n + d) % 10 == d;
  }

  /** 64 bits. */
  lemma NumberLimit(n: nat)
    ensures Uint64Of(ToDecimal(n)).Some? <==> n <= 18446744073709551615
  {
    PrintedNumberParses(n);
  }

  lemma NotNumbers()
    ensures Uint64Of("").None? && Uint64Of("-1").None? && Uint64Of("+1").None? && Uint64Of(" 1").None?
             && Uint64Of("0x1").None?
  {
    assert !IsDigit("-1"[0]) && !IsDigit("+1"[0]) && !IsDigit(" 1"[0]) && !IsDigit("0x1"[1]);
  }

  /** Uploads of at most 16 GiB. */
  lemma UploadLimit(name: string, size: nat)
    requires SafeFilename(name)
    ensures ParseRequest("PUT " + name + " " + ToDecimal(size))
            == if size <= 17179869184 then Accepted(Put(name, size)) else Rejected("invalid-size")
  {
    var r := Put(name, size);
    PrintedWords(r);
    ParseRequestExact(PrintRequest(r));
    PrintedNumberParses(size);
  }

  // ---------------------------------------------------------------------------
  // Texts

  /** The control lines of the server. */
  lemma ControlLines(reason: string, n: nat)
    ensures ErrorLine(reason) == "ERR " + reason + "\n"
    ensures READY_LINE == "READY\n" && OkLine(n) == "OK " + ToDecimal(n) + "\n"
  {
    hide ToDecimal;
  }

  /** The request lines of the client. */
  lemma RequestLines(name: string, n: nat)
    ensures TextOf(Get(name)) == "GET " + name + "\n"
    ensures TextOf(Put(name, n)) == "PUT " + name + " " + ToDecimal(n) + "\n"
  {
    hide ToDecimal;
  }

  lemma AfterPrefix(prefix: string, line: string)
    ensures prefix <= line <==> |prefix| <= |line| && line == prefix + line[|prefix|..]
    ensures prefix <= line <==> exists rest :: line == prefix + rest
  {
    if prefix <= line {
      assert line[..|prefix|] == prefix;
      assert line == line[..|prefix|] + line[|prefix|..];
    }
  }

  /** What the client takes for an error, for a size, and for neither. */
  lemma ResponseLines(line: string, n: nat)
    ensures IsErrorLine(line) <==> exists reason :: line == "ERR " + reason
    ensures OkSizeOf(line) == Some(n) <==> exists digits :: line == "OK " + digits && Uint64Of(digits) == Some(n)
  {
    hide Uint64Of;
    AfterPrefix("ERR ", line);
    AfterPrefix("OK ", line);
    forall digits | line == "OK " + digits
      ensures line[3..] == digits
    {
    }
  }

  lemma ConfirmingLine(n: nat)
    ensures OkSizeOf("OK " + ToDecimal(n)) == if n <= 18446744073709551615 then Some(n) else None
  {
    PrintedNumberParses(n);
    assert ("OK " + ToDecimal(n))[3..] == ToDecimal(n);
    hide ToDecimal, Uint64Of;
  }

  // ---------------------------------------------------------------------------
  // Buffers

  /** One receive delivers 1 to 65536 bytes. */
  lemma ReceiveLimit(bytes: string)
    ensures (exists r: RecvOutcome :: r.Data? && r.bytes == bytes) <==> 1 <= |bytes| <= 65536
  {
    if 1 <= |bytes| <= 65536 {
      assert Data(bytes).bytes == bytes;
    }
  }

  /** The request lines for which the pieces do not matter. */
  lemma RequestPieces(line: string)
    requires '\n' !in line
    ensures SplitsAgree(line) <==> |line| <= 4096 || |line| >= 69632
  {
    hide SplitsAgree;
    SplitsAgreeIff(line);
  }

  /** The response lines for which they do not. */
  lemma ResponsePieces(line: string)
    requires '\n' !in line
    ensures FoundAlike(line) <==> |line| <= 4096 || |line| >= 69632
  {
    hide FoundAlike;
    FoundAlikeIff(line);
  }
}
