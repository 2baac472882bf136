/** Double-quoted text as the configuration file carries it, and reading it back. */
module ConfigQuote {
  import opened Basics

  /** Which characters go in as they are; the writer's table never counts a control character in. */
  type Printable = char -> bool

  ghost predicate Sane(printable: Printable) {
    forall c :: c < ' ' ==> !printable(c)
  }

  function HexDigit(n: nat): char
    requires n < 16
  {
    if n < 10 then ('0' as int + n) as char else ('a' as int + n - 10) as char
  }

  function HexValue(c: char): Option<nat> {
    if '0' <= c <= '9' then Some(c as int - '0' as int)
    else if 'a' <= c <= 'f' then Some(c as int - 'a' as int + 10)
    else if 'A' <= c <= 'F' then Some(c as int - 'A' as int + 10)
    else None
  }

  /** `width` hexadecimal digits, most significant first. */
  function Hex(n: nat, width: nat): string {
    if width == 0 then "" else Hex(n / 16, width - 1) + [HexDigit(n % 16)]
  }

  function Unhex(s: string): Option<nat> {
    if s == "" then Some(0)
    else
      var high, low := Unhex(s[..|s| - 1]), HexValue(s[|s| - 1]);
      if high.None? || low.None? then None else Some(high.value * 16 + low.value)
  }

  function Power16(width: nat): nat {
    if width == 0 then 1 else 16 * Power16(width - 1)
  }

  lemma {:induction false} UnhexOfHex(n: nat, width: nat)
    requires n < Power16(width)
    ensures |Hex(n, width)| == width && Unhex(Hex(n, width)) == Some(n)
    ensures '\n' !in Hex(n, width)
  {
    if width > 0 {
      UnhexOfHex(n / 16, width - 1);
      var front := Hex(n / 16, width - 1);
      assert Hex(n, width)[..width - 1] == front;
    }
  }

  /** The letter that stands for a control character after a backslash. */
  function Letter(c: char): Option<char> {
    match c as int
    case 7 => Some('a')
    case 8 => Some('b')
    case 12 => Some('f')
    case 10 => Some('n')
    case 13 => Some('r')
    case 9 => Some('t')
    case 11 => Some('v')
    case _ => None
  }

  function Escape(c: char, printable: Printable): string {
    if c == '"' || c == '\\' then ['\\', c]
    else if printable(c) then [c]
    else if Letter(c).Some? then ['\\', Letter(c).value]
    else if c < ' ' || c as int == 0x7f then ['\\', 'x'] + Hex(c as int, 2)
    else if c as int < 0x10000 then ['\\', 'u'] + Hex(c as int, 4)
    else ['\\', 'U'] + Hex(c as int, 8)
  }

  function Escaped(s: string, printable: Printable): string {
    if s == "" then "" else Escape(s[0], printable) + Escaped(s[1..], printable)
  }

  function Quote(s: string, printable: Printable): string {
    ['"'] + Escaped(s, printable) + ['"']
  }

  /** Meaning of a letter after a backslash. */
  function Named(c: char): Option<char> {
    match c
    case 'a' => Some(7 as char)
    case 'b' => Some(8 as char)
    case 'f' => Some(12 as char)
    case 'n' => Some(10 as char)
    case 'r' => Some(13 as char)
    case 't' => Some(9 as char)
    case 'v' => Some(11 as char)
    case '\\' => Some('\\')
    case '"' => Some('"')
    case _ => None
  }

  function Width(c: char): nat {
    match c
    case 'x' => 2
    case 'u' => 4
    case 'U' => 8
    case _ => 0
  }

  /** A number that is a character of the text; `\x` reaches single bytes only, of which these are text. */
  function Scalar(n: nat, width: nat): Option<char> {
    if width == 2 then if n < 0x80 then Some(n as char) else None
    else if n < 0xD800 || 0xE000 <= n < 0x11_0000 then Some(n as char)
    else None
  }

  datatype Piece = Bad | Piece(c: char, rest: string)

  /** The first character of quoted text, and what follows it. */
  function First(s: string): (p: Piece)
    requires s != ""
    ensures p.Piece? ==> |p.rest| < |s|
  {
    if s[0] == '"' || s[0] == '\n' then Bad
    else if s[0] != '\\' then Piece(s[0], s[1..])
    else if |s| == 1 then Bad
    else if Named(s[1]).Some? then Piece(Named(s[1]).value, s[2..])
    else
      var w := Width(s[1]);
      if w == 0 || |s| < 2 + w || Unhex(s[2..2 + w]).None? then Bad
      else
        var c := Scalar(Unhex(s[2..2 + w]).value, w);
        if c.None? then Bad else Piece(c.value, s[2 + w..])
  }

  function Unescaped(s: string): Option<string>
    decreases |s|
  {
    if s == "" then Some("")
    else
      var p := First(s);
      if p.Bad? then None
      else
        var rest := Unescaped(p.rest);
        if rest.None? then None else Some([p.c] + rest.value)
  }

  function Unquote(s: string): Option<string> {
    if |s| < 2 || s[0] != '"' || s[|s| - 1] != '"' then None else Unescaped(s[1..|s| - 1])
  }

  lemma FirstOfHex(c: char, letter: char, n: nat, rest: string)
    requires Width(letter) > 0 && n < Power16(Width(letter)) && Scalar(n, Width(letter)) == Some(c)
    ensures First(['\\', letter] + Hex(n, Width(letter)) + rest) == Piece(c, rest)
  {
    var w := Width(letter);
    UnhexOfHex(n, w);
    var s := ['\\', letter] + Hex(n, w) + rest;
    assert s[2..2 + w] == Hex(n, w);
    assert s[2 + w..] == rest;
  }

  lemma Powers()
    ensures Power16(2) == 0x100 && Power16(4) == 0x10000 && Power16(8) == 0x1_0000_0000
  {
    assert Power16(4) == 0x10000;
    assert Power16(6) == 0x100_0000;
  }

  /** One escaped character reads back as itself, and is not a bare quote or a line end. */
  lemma FirstOfEscape(c: char, printable: Printable, rest: string)
    requires Sane(printable)
    ensures First(Escape(c, printable) + rest) == Piece(c, rest)
    ensures Escape(c, printable) != "" && '\n' !in Escape(c, printable)
  {
    var e := Escape(c, printable);
    var s := e + rest;
    if c == '"' || c == '\\' {
      assert s[2..] == rest;
    } else if printable(c) {
      assert s[1..] == rest;
    } else if Letter(c).Some? {
      assert Named(Letter(c).value) == Some(c);
      assert s[2..] == rest;
    } else {
      Powers();
      var letter := if c < ' ' || c as int == 0x7f then 'x' else if c as int < 0x10000 then 'u' else 'U';
      assert Scalar(c as int, Width(letter)) == Some(c);
      FirstOfHex(c, letter, c as int, rest);
      UnhexOfHex(c as int, Width(letter));
    }
  }

  lemma {:induction false} UnescapedOfEscaped(s: string, printable: Printable)
    requires Sane(printable)
    ensures Unescaped(Escaped(s, printable)) == Some(s) && '\n' !in Escaped(s, printable)
  {
    if s != "" {
      FirstOfEscape(s[0], printable, Escaped(s[1..], printable));
      UnescapedOfEscaped(s[1..], printable);
      assert [s[0]] + s[1..] == s;
    }
  }

  /** Reading quoted text gives the text back, and quoted text never breaks a line. */
  lemma UnquoteOfQuote(s: string, printable: Printable)
    requires Sane(printable)
    ensures Unquote(Quote(s, printable)) == Some(s) && '\n' !in Quote(s, printable)
  {
    UnescapedOfEscaped(s, printable);
    var q := Quote(s, printable);
    assert q[1..|q| - 1] == Escaped(s, printable);
  }
}
