/**
 The string literals of the KDL log (crates/vp-app/src/log_format.rs:155-174): one record stays on one
 line, and a reader finds the very string again.
 */
module LogFormat {
  import opened Prelude

  function Digit(n: nat): char
    requires n < 16
  {
    "0123456789abcdef"[n]
  }

  /** Lower-case hexadecimal without leading zeros. */
  function Hex(n: nat): string
    requires n < 0x20
  {
    if n < 16 then [Digit(n)] else ['1', Digit(n - 16)]
  }

  function EscapedChar(c: char): (s: string)
    ensures s != [] && forall k :: 0 <= k < |s| ==> s[k] as int >= 0x20
  {
    if c == '"' then "\\\""
    else if c == '\\' then "\\\\"
    else if c == '\n' then "\\n"
    else if c == '\r' then "\\r"
    else if c == '\t' then "\\t"
    else if c as int < 0x20 then "\\u{" + Hex(c as int) + "}"
    else [c]
  }

  function Escaped(s: string): (r: string)
    ensures forall k :: 0 <= k < |r| ==> r[k] as int >= 0x20
  {
    if s == [] then [] else EscapedChar(s[0]) + Escaped(s[1..])
  }

  lemma {:induction false} EscapedOneMore(s: string, c: char)
    ensures Escaped(s + [c]) == Escaped(s) + EscapedChar(c)
  {
    if s == [] {
      assert [c][1..] == [];
    } else {
      assert (s + [c])[1..] == s[1..] + [c];
      EscapedOneMore(s[1..], c);
    }
  }

  function Literal(s: string): string {
    "\"" + Escaped(s) + "\""
  }

  lemma EscapedUpTo(s: string, i: nat)
    requires i < |s|
    ensures Escaped(s[..i + 1]) == Escaped(s[..i]) + EscapedChar(s[i])
  {
    EscapedOneMore(s[..i], s[i]);
    assert s[..i + 1] == s[..i] + [s[i]];
  }

  lemma LongerLiteral(s: string, piece: string)
    ensures "\"" + s + piece == "\"" + (s + piece)
  {
  }

  method EscapeChar(c: char) returns (piece: string)
    ensures piece == EscapedChar(c)
  {
    match c
    case '"' => piece := "\\\"";
    case '\\' => piece := "\\\\";
    case '\n' => piece := "\\n";
    case '\r' => piece := "\\r";
    case '\t' => piece := "\\t";
    case _ =>
      if c as int < 0x20 {
        piece := "\\u{" + Hex(c as int) + "}";
      } else {
        piece := [c];
      }
  }

  method KdlString(s: string) returns (out: string)
    ensures out == Literal(s)
  {
    out := "\"";
    for i := 0 to |s|
      invariant out == "\"" + Escaped(s[..i])
    {
      var piece := EscapeChar(s[i]);
      EscapedUpTo(s, i);
      LongerLiteral(Escaped(s[..i]), piece);
      out := out + piece;
    }
    assert s[..|s|] == s;
    out := out + "\"";
  }

  // ----- a reader -----

  function Value(c: char): Option<nat> {
    if '0' <= c <= '9' then Some(c as int - '0' as int)
    else if 'a' <= c <= 'f' then Some(10 + c as int - 'a' as int)
    else None
  }

  /** The number before the closing brace, and what follows the brace; only control characters are accepted. */
  function Number(s: string, n: nat): (r: Option<(char, string)>)
    ensures r.Some? ==> |r.value.1| < |s|
  {
    if s == [] then None
    else if s[0] == '}' then (if n < 0x20 then Some((n as char, s[1..])) else None)
    else
      var digit := Value(s[0]);
      if digit.None? then None else Number(s[1..], 16 * n + digit.value)
  }

  /** The character that an escape after a backslash stands for, and what follows it. */
  function Unescaped(s: string): (r: Option<(char, string)>)
    ensures r.Some? ==> |r.value.1| < |s|
  {
    if s == [] then None
    else if s[0] == '"' then Some(('"', s[1..]))
    else if s[0] == '\\' then Some(('\\', s[1..]))
    else if s[0] == 'n' then Some(('\n', s[1..]))
    else if s[0] == 'r' then Some(('\r', s[1..]))
    else if s[0] == 't' then Some(('\t', s[1..]))
    else if s[0] == 'u' && |s| > 1 && s[1] == '{' then Number(s[2..], 0)
    else None
  }

  /** Reads up to the first quote that is not escaped; a raw control character is an error. */
  function Body(s: string): Option<(string, string)>
    decreases |s|
  {
    if s == [] || (s[0] as int) < 0x20 then None
    else if s[0] == '"' then Some(([], s[1..]))
    else
      var first := if s[0] == '\\' then Unescaped(s[1..]) else Some((s[0], s[1..]));
      if first.None? then None
      else
        var rest := Body(first.value.1);
        if rest.None? then None else Some(([first.value.0] + rest.value.0, rest.value.1))
  }

  function Read(s: string): Option<(string, string)> {
    if s == [] || s[0] != '"' then None else Body(s[1..])
  }

  lemma HexIsRead(n: nat, rest: string)
    requires n < 0x20
    ensures Number(Hex(n) + "}" + rest, 0) == Some((n as char, rest))
  {
    var s := Hex(n) + "}" + rest;
    if n < 16 {
      assert s[1..] == "}" + rest;
    } else {
      assert s[1..] == [Digit(n - 16)] + ("}" + rest);
      assert s[1..][1..] == "}" + rest;
      assert Number(s[1..], 1) == Number("}" + rest, n);
    }
    assert ("}" + rest)[1..] == rest;
  }

  lemma EscapeIsRead(c: char, rest: string)
    requires EscapedChar(c)[0] == '\\'
    ensures Unescaped((EscapedChar(c) + rest)[1..]) == Some((c, rest))
  {
    var s := EscapedChar(c) + rest;
    if (c as int) < 0x20 && c != '\n' && c != '\r' && c != '\t' {
      assert s[1..][2..] == Hex(c as int) + "}" + rest;
      HexIsRead(c as int, rest);
    } else {
      assert s[1..][1..] == rest;
    }
  }

  lemma CharIsRead(c: char, rest: string)
    ensures Body(EscapedChar(c) + rest) ==
      var r := Body(rest); if r.None? then None else Some(([c] + r.value.0, r.value.1))
  {
    if EscapedChar(c)[0] == '\\' {
      EscapeIsRead(c, rest);
    } else {
      assert (EscapedChar(c) + rest)[1..] == rest;
    }
  }

  lemma {:induction false} BodyIsRead(s: string, rest: string)
    requires rest != [] && rest[0] == '"'
    ensures Body(Escaped(s) + rest) == Some((s, rest[1..]))
    decreases |s|
  {
    if s == [] {
      assert Escaped(s) + rest == rest;
    } else {
      BodyIsRead(s[1..], rest);
      assert s == [s[0]] + s[1..];
      assert Escaped(s) + rest == EscapedChar(s[0]) + (Escaped(s[1..]) + rest);
      CharIsRead(s[0], Escaped(s[1..]) + rest);
    }
  }

  /** Reading finds the string and stops at its own closing quote, whatever follows. */
  lemma LiteralRoundTrip(s: string, rest: string)
    ensures Read(Literal(s) + rest) == Some((s, rest))
  {
    assert (Literal(s) + rest)[1..] == Escaped(s) + ("\"" + rest);
    assert ("\"" + rest)[1..] == rest;
    BodyIsRead(s, "\"" + rest);
  }

  lemma LiteralIsInjective(a: string, b: string)
    ensures Literal(a) == Literal(b) <==> a == b
  {
    LiteralRoundTrip(a, "");
    LiteralRoundTrip(b, "");
  }

  /** No line feed, carriage return or other character below 0x20: one record stays on one line. */
  lemma LiteralIsOneLine(s: string, k: nat)
    requires k < |Literal(s)|
    ensures Literal(s)[k] as int >= 0x20
  {
    assert 0 < k < |Literal(s)| - 1 ==> Literal(s)[k] == Escaped(s)[k - 1];
  }
}
