/**
  What `getRepoOriginUrl` and `getRepoUpstreamUrl` make of the output of
  `git config --get ...` (forkpull.py:62-64 and forkpull.py:79-84).

  `check_output` returns bytes, and the script turns them into text with `str(...)`,
  which yields Python's printed form of a bytes value (`b'...'`, with escapes), not
  the decoded text. The two functions then clean that printed form differently.
 */
module Cleaning {
  import opened PyStr

  newtype Byte = x: int | 0 <= x < 256

  const NEWLINE: Byte := 10
  const SINGLE_QUOTE: Byte := 0x27
  const DOUBLE_QUOTE: Byte := 0x22
  const BACKSLASH: Byte := 0x5c

  /** The literal `b'` that opens the printed form of a bytes value. */
  const OPENING: string := "b'"
  /** The escaped newline and closing quote that end the printed form of git's output. */
  const ESCAPED_END: string := "\\n'"

  function HexDigit(n: int): char
    requires 0 <= n < 16
  {
    "0123456789abcdef"[n]
  }

  /** How Python prints one byte inside a bytes value quoted with `q`. */
  function EscapeByte(x: Byte, q: char): (r: string)
    ensures |r| >= 1
  {
    var c := x as int as char;
    if c == q || c == '\\' then ['\\', c]
    else if c == '\t' then "\\t"
    else if c == '\n' then "\\n"
    else if c == '\r' then "\\r"
    else if x < 0x20 || x >= 0x7f then ['\\', 'x', HexDigit(x as int / 16), HexDigit(x as int % 16)]
    else [c]
  }

  function Escape(b: seq<Byte>, q: char): (r: string)
    ensures |r| >= |b|
  {
    if b == [] then "" else EscapeByte(b[0], q) + Escape(b[1..], q)
  }

  /**
    Python's `str(b)` for a bytes value `b`: `b`, a quote, the escaped bytes and the
    same quote. The quote is `"` when `b` holds a single quote and no double quote.
   */
  function BytesRepr(b: seq<Byte>): (r: string)
    ensures |r| >= |b| + 3
    ensures r[0] == 'b' && r[1] == r[|r| - 1] && (r[1] == '\'' || r[1] == '"')
  {
    var q := if SINGLE_QUOTE in b && DOUBLE_QUOTE !in b then '"' else '\'';
    "b" + [q] + Escape(b, q) + [q]
  }

  /** Bytes that Python prints as themselves inside single quotes. */
  predicate Plain(b: seq<Byte>) {
    forall i :: 0 <= i < |b| ==> 0x20 <= b[i] < 0x7f && b[i] != SINGLE_QUOTE && b[i] != BACKSLASH
  }

  /** The ASCII text of a byte string. */
  function Text(b: seq<Byte>): (t: string)
    ensures |t| == |b|
    ensures forall i :: 0 <= i < |b| ==> t[i] == b[i] as int as char
  {
    if b == [] then "" else [b[0] as int as char] + Text(b[1..])
  }

  /** forkpull.py:62-64: delete every `b'`, then strip whitespace on the right only. */
  function CleanOrigin(shown: string): (r: string)
    ensures |r| <= |shown|
    ensures r == [] || !IsSpace(r[|r| - 1])
  {
    RStrip(DeleteAll(shown, OPENING))
  }

  /** forkpull.py:79-84: delete every `b'`, then every literal `\n'`, then strip both sides. */
  function CleanUpstream(shown: string): (r: string)
    ensures |r| <= |shown|
    ensures r == [] || (!IsSpace(r[0]) && !IsSpace(r[|r| - 1]))
  {
    Strip(DeleteAll(DeleteAll(shown, OPENING), ESCAPED_END))
  }

  // ---------------------------------------------------------------------------

  lemma {:induction false} EscapeAppend(a: seq<Byte>, b: seq<Byte>, q: char)
    ensures Escape(a + b, q) == Escape(a, q) + Escape(b, q)
    decreases |a|
  {
    if a == [] {
      assert a + b == b;
    } else {
      assert (a + b)[1..] == a[1..] + b;
      EscapeAppend(a[1..], b, q);
    }
  }

  /** Plain bytes are printed as their own text. */
  lemma {:induction false} EscapePlain(b: seq<Byte>)
    requires Plain(b)
    ensures Escape(b, '\'') == Text(b)
    decreases |b|
  {
    if b != [] {
      assert Plain(b[1..]) by {
        forall i | 0 <= i < |b[1..]| ensures 0x20 <= b[1..][i] < 0x7f && b[1..][i] != SINGLE_QUOTE && b[1..][i] != BACKSLASH {
          assert b[1..][i] == b[i + 1];
        }
      }
      EscapePlain(b[1..]);
    }
  }

  /** The text of plain bytes has no quote and no backslash. */
  lemma PlainText(b: seq<Byte>)
    requires Plain(b)
    ensures '\'' !in Text(b) && '\\' !in Text(b)
  {
    var t := Text(b);
    forall i | 0 <= i < |t| ensures t[i] != '\'' && t[i] != '\\' {
      assert t[i] == b[i] as int as char;
    }
  }

  /**
    What `str(check_output(...))` looks like for the output git prints for a
    configured remote: the URL's bytes and a newline.
   */
  lemma ReprOfLine(b: seq<Byte>)
    requires Plain(b)
    ensures BytesRepr(b + [NEWLINE]) == OPENING + Text(b) + ESCAPED_END
  {
    NoQuoteInLine(b);
    ReprSingleQuoted(b + [NEWLINE]);
    EscapeLine(b);
    var t := Text(b);
    assert "\\n" + "'" == ESCAPED_END;
    assert OPENING + (t + "\\n") + "'" == OPENING + t + ("\\n" + "'");
  }

  lemma NoQuoteInLine(b: seq<Byte>)
    requires Plain(b)
    ensures SINGLE_QUOTE !in b + [NEWLINE]
  {
    forall i | 0 <= i < |b + [NEWLINE]| ensures (b + [NEWLINE])[i] != SINGLE_QUOTE {
      if i < |b| { assert (b + [NEWLINE])[i] == b[i]; }
    }
  }

  /** Without a single quote in it, a bytes value is printed between single quotes. */
  lemma ReprSingleQuoted(b: seq<Byte>)
    requires SINGLE_QUOTE !in b
    ensures BytesRepr(b) == OPENING + Escape(b, '\'') + "'"
  {
  }

  /** A plain line prints as its text and an escaped newline. */
  lemma EscapeLine(b: seq<Byte>)
    requires Plain(b)
    ensures Escape(b + [NEWLINE], '\'') == Text(b) + "\\n"
  {
    EscapeAppend(b, [NEWLINE], '\'');
    EscapePlain(b);
    assert Escape([NEWLINE], '\'') == "\\n";
  }

  /** Deleting `b'` from the printed line removes only the opening. */
  lemma DeleteOpening(t: string)
    requires '\'' !in t
    ensures DeleteAll(OPENING + t + ESCAPED_END, OPENING) == t + ESCAPED_END
  {
    var x := OPENING + t + ESCAPED_END;
    var y := t + ESCAPED_END;
    assert x[..2] == OPENING;
    assert x[2..] == y;
    if Contains(y, OPENING) {
      var i :| 0 <= i <= |y| && At(y, OPENING, i);
      AtChar(y, OPENING, i, 0);
      AtChar(y, OPENING, i, 1);
      assert false;
    }
    DeleteAllAbsent(y, OPENING);
  }

  /**
    On git's output the origin cleaner keeps the escaped newline and the closing
    quote: the URL it returns ends in a literal `\n'`.
   */
  lemma OriginKeepsEscapedNewline(b: seq<Byte>)
    requires Plain(b)
    ensures CleanOrigin(BytesRepr(b + [NEWLINE])) == Text(b) + ESCAPED_END
  {
    ReprOfLine(b);
    PlainText(b);
    DeleteOpening(Text(b));
  }

  /** Deleting `b'` and then `\n'` from git's printed line leaves the URL's text. */
  lemma DeleteBothOnLine(b: seq<Byte>)
    requires Plain(b)
    ensures DeleteAll(DeleteAll(BytesRepr(b + [NEWLINE]), OPENING), ESCAPED_END) == Text(b)
  {
    var t := Text(b);
    ReprOfLine(b);
    PlainText(b);
    DeleteOpening(t);
    forall i | 0 <= i < |t| ensures !At(t + ESCAPED_END, ESCAPED_END, i) {
      if At(t + ESCAPED_END, ESCAPED_END, i) {
        AtChar(t + ESCAPED_END, ESCAPED_END, i, 0);
      }
    }
    DeleteAllAfter(t, ESCAPED_END, ESCAPED_END);
    assert ESCAPED_END[..|ESCAPED_END|] == ESCAPED_END;
    assert DeleteAll(ESCAPED_END, ESCAPED_END) == "";
    assert t + "" == t;
  }

  /** On git's output the upstream cleaner gives back the URL's text, stripped. */
  lemma UpstreamRecoversUrl(b: seq<Byte>)
    requires Plain(b)
    ensures CleanUpstream(BytesRepr(b + [NEWLINE])) == Strip(Text(b))
  {
    DeleteBothOnLine(b);
  }

  /**
    The origin cleaner as evidently intended: like the upstream cleaner it also
    deletes the escaped newline and closing quote, then strips on the right.
   */
  function CleanOriginIntended(shown: string): (r: string)
    ensures |r| <= |shown|
    ensures r == [] || !IsSpace(r[|r| - 1])
  {
    RStrip(DeleteAll(DeleteAll(shown, OPENING), ESCAPED_END))
  }

  /** On git's output the intended origin cleaner gives back the URL's text. */
  lemma IntendedOriginRecoversUrl(b: seq<Byte>)
    requires Plain(b)
    ensures CleanOriginIntended(BytesRepr(b + [NEWLINE])) == RStrip(Text(b))
  {
    DeleteBothOnLine(b);
  }

  /**
    The two cleaners never agree on git's output: the origin result is always
    the longer, by the surviving `\n'` at least.
   */
  lemma CleanersDisagree(b: seq<Byte>)
    requires Plain(b)
    ensures |CleanOrigin(BytesRepr(b + [NEWLINE]))| >= |CleanUpstream(BytesRepr(b + [NEWLINE]))| + 3
    ensures Strip(Text(b)) == Text(b) ==>
      CleanOrigin(BytesRepr(b + [NEWLINE])) == CleanUpstream(BytesRepr(b + [NEWLINE])) + ESCAPED_END
  {
    OriginKeepsEscapedNewline(b);
    UpstreamRecoversUrl(b);
  }
}
