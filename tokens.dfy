/**
 * Tokens as the tokenizer hands them to the parsers and the evaluators. The
 * tokenizer itself is not part of this model: a program's tokens are an input
 * sequence that ends with an end-of-file token.
 */
module Tokens {

  /** Token types. `Arrow` is the `<-` operator, which the larger parser's
      infix table maps to SEND. `Other` stands for every type the parsers
      treat alike (no prefix rule, no infix precedence). */
  datatype Kind =
    | Identifier | Assign | Minus | Plus | Bang | OpenParen | ClosedParen
    | Number | String | Boolean | Function | When | Is | Else
    | Colon | Comma | Semicolon | Eof
    | Arrow | Or | And | Multiply | Divide
    | Eq | Ne | Lt | Le | Gt | Ge
    | Other(name: string)

  /** A token: its type, its literal text and the line it was read on.
      Token equality is structural. */
  datatype Token = Token(kind: Kind, value: string, line: int)

  /** The literal text of the boolean keywords. */
  const TrueLiteral: string := "true"
  const FalseLiteral: string := "false"

  /** The name of a token type as error messages print it. */
  function KindName(k: Kind): string
  {
    match k
    case Identifier => "IDENTIFIER"
    case Assign => "ASSIGN"
    case Minus => "MINUS"
    case Plus => "PLUS"
    case Bang => "BANG"
    case OpenParen => "OPEN_PAREN"
    case ClosedParen => "CLOSED_PAREN"
    case Number => "NUMBER"
    case String => "STRING"
    case Boolean => "BOOLEAN"
    case Function => "FUNCTION"
    case When => "WHEN"
    case Is => "IS"
    case Else => "ELSE"
    case Colon => "COLON"
    case Comma => "COMMA"
    case Semicolon => "SEMICOLON"
    case Eof => "EOF"
    case Arrow => "ARROW"
    case Or => "OR"
    case And => "AND"
    case Multiply => "MULTIPLY"
    case Divide => "DIVIDE"
    case Eq => "EQ"
    case Ne => "NE"
    case Lt => "LT"
    case Le => "LE"
    case Gt => "GT"
    case Ge => "GE"
    case Other(name) => name
  }

  datatype Option<X> = None | Some(value: X)

  // ---------------------------------------------------------------------------
  // Number literals: the parsers read NUMBER tokens with Python's float()
  // ---------------------------------------------------------------------------

  predicate IsDigit(c: char)
  {
    '0' <= c <= '9'
  }

  predicate AllDigits(s: string)
  {
    s == [] || (IsDigit(s[0]) && AllDigits(s[1..]))
  }

  /** The value of the decimal digits s appended to the digits already read as acc. */
  function DigitsValue(acc: nat, s: string): nat
    requires AllDigits(s)
    decreases s
  {
    if s == [] then acc else DigitsValue(10 * acc + (s[0] - '0') as nat, s[1..])
  }

  function Power10(n: nat): (r: nat)
    ensures r >= 1
  {
    if n == 0 then 1 else 10 * Power10(n - 1)
  }

  /** The index of the first '.', or |s| when there is none. */
  function DotIndex(s: string): (i: nat)
    ensures i <= |s|
  {
    if s == [] then 0 else if s[0] == '.' then 0 else 1 + DotIndex(s[1..])
  }

  /** `float(text)` for the spellings `digits`, `digits.digits`, `digits.`
      and `.digits`; any other text is not a number. */
  function DecimalValue(s: string): Option<real>
  {
    var d := DotIndex(s);
    var whole := s[..d];
    var fraction := if d < |s| then s[d + 1..] else [];
    if AllDigits(whole) && AllDigits(fraction) && |whole| + |fraction| > 0 then
      Some(DigitsValue(0, whole) as real + DigitsValue(0, fraction) as real / Power10(|fraction|) as real)
    else None
  }

  lemma {:induction false} NoDotInDigits(s: string)
    requires AllDigits(s)
    ensures DotIndex(s) == |s|
  {
    if s != [] {
      NoDotInDigits(s[1..]);
    }
  }

  /** A string of digits denotes its natural number. */
  lemma {:induction false} DecimalOfDigits(s: string)
    requires AllDigits(s) && |s| > 0
    ensures DecimalValue(s) == Some(DigitsValue(0, s) as real)
  {
    NoDotInDigits(s);
    assert s[..|s|] == s;
    var none: string := [];
    assert AllDigits(none) && DigitsValue(0, none) == 0 && Power10(|none|) == 1;
    assert DigitsValue(0, none) as real / Power10(|none|) as real == 0.0;
  }

  /** The first '.' after a run of digits is the one that ends it. */
  lemma {:induction false} DotAfterDigits(w: string, rest: string)
    requires AllDigits(w) && rest != [] && rest[0] == '.'
    ensures DotIndex(w + rest) == |w|
    decreases |w|
  {
    if w == [] {
      assert w + rest == rest;
    } else {
      assert (w + rest)[0] == w[0] && (w + rest)[1..] == w[1..] + rest;
      DotAfterDigits(w[1..], rest);
    }
  }

  /** `float(w + "." + f)` for digits w: whole and fraction digits give
      w + f / 10^|f|, a lone "." is not a number, and neither is any text
      whose part after the first '.' holds anything but digits, such as a
      second '.'. */
  lemma {:induction false} DecimalOfPoint(w: string, f: string)
    requires AllDigits(w)
    ensures AllDigits(f) && |w| + |f| > 0 ==>
      DecimalValue(w + "." + f) == Some(DigitsValue(0, w) as real + DigitsValue(0, f) as real / Power10(|f|) as real)
    ensures !AllDigits(f) || |w| + |f| == 0 ==> DecimalValue(w + "." + f) == None
  {
    var s := w + "." + f;
    DotAfterDigits(w, "." + f);
    assert s == w + ("." + f);
    assert s[..|w|] == w;
    assert s[|w| + 1..] == f;
  }

  /** What the tokenizer guarantees: the token sequence ends with EOF. */
  predicate EndsWithEof(toks: seq<Token>)
  {
    |toks| > 0 && toks[|toks| - 1].kind == Eof
  }

  // ---------------------------------------------------------------------------
  // Integers as `str()` prints them, for error messages
  // ---------------------------------------------------------------------------

  function DigitChar(d: nat): (c: char)
    requires d < 10
    ensures IsDigit(c) && (c - '0') as nat == d
  {
    "0123456789"[d]
  }

  function NatToString(n: nat): (s: string)
    ensures |s| > 0 && AllDigits(s)
    decreases n
  {
    if n < 10 then [DigitChar(n)]
    else
      var front := NatToString(n / 10);
      AllDigitsAppend(front, DigitChar(n % 10));
      front + [DigitChar(n % 10)]
  }

  /** `str(n)` for an integer. */
  function IntToString(n: int): string
  {
    if n < 0 then "-" + NatToString(-n) else NatToString(n)
  }

  lemma {:induction false} AllDigitsAppend(s: string, c: char)
    requires AllDigits(s) && IsDigit(c)
    ensures AllDigits(s + [c])
    decreases s
  {
    if s != [] {
      assert (s + [c])[1..] == s[1..] + [c];
      AllDigitsAppend(s[1..], c);
    } else {
      assert (s + [c])[1..] == [];
    }
  }

  lemma {:induction false} DigitsValueAppend(acc: nat, s: string, c: char)
    requires AllDigits(s) && IsDigit(c)
    ensures AllDigits(s + [c]) && DigitsValue(acc, s + [c]) == 10 * DigitsValue(acc, s) + (c - '0') as nat
    decreases s
  {
    AllDigitsAppend(s, c);
    if s == [] {
      assert (s + [c])[1..] == [];
    } else {
      assert (s + [c])[1..] == s[1..] + [c];
      DigitsValueAppend(10 * acc + (s[0] - '0') as nat, s[1..], c);
    }
  }

  /** Reading back the digits `str()` prints gives the number. */
  lemma {:induction false} NatToStringRoundTrip(n: nat)
    ensures DigitsValue(0, NatToString(n)) == n
    decreases n
  {
    if n >= 10 {
      NatToStringRoundTrip(n / 10);
      DigitsValueAppend(0, NatToString(n / 10), DigitChar(n % 10));
    }
  }
}
