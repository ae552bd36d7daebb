/** The configuration store: a string-to-string map filled from
    `key=value` lines, with typed getters. File and environment reading
    are outside the model; `ParseLine` is what each line of a file goes through. */
module Configs {
  import opened Wrappers
  import opened Text

  datatype Config = Config(entries: map<string, string>, isLoaded: bool)

  const Blanks: set<char> := {' ', '\t'}
  const TrailingBlanks: set<char> := {' ', '\t', '\r', '\n'}

  /** Lines the parser ignores before looking for '=': empty ones and
      comments, judged on the raw first characters. */
  predicate IsSkipped(line: string) {
    |line| == 0 || line[0] == '#' || (|line| > 1 && line[0] == '/' && line[1] == '/')
  }

  /** Drops one pair of matching surrounding quotes. */
  function Unquote(v: string): (r: string)
    ensures |v| >= 2 && (v[0] == v[|v| - 1] == '"' || v[0] == v[|v| - 1] == '\'') ==> r == v[1..|v| - 1]
    ensures !(|v| >= 2 && (v[0] == v[|v| - 1] == '"' || v[0] == v[|v| - 1] == '\'')) ==> r == v
  {
    if |v| >= 2 && ((v[0] == '"' && v[|v| - 1] == '"') || (v[0] == '\'' && v[|v| - 1] == '\'')) then v[1..|v| - 1]
    else v
  }

  function ParseKey(raw: string): string {
    TrimRight(TrimLeft(raw, Blanks), Blanks)
  }

  function ParseValue(raw: string): string {
    Unquote(TrimRight(TrimLeft(raw, Blanks), TrailingBlanks))
  }

  /** The key and value a line holds: split at the FIRST '=', key trimmed
      of blanks on both sides, value trimmed (more at its end) and
      unquoted. Skipped lines and lines without '=' hold nothing. */
  function ParsePair(line: string): (r: Option<(string, string)>)
    ensures r.None? <==> IsSkipped(line) || '=' !in line
    ensures r.Some? ==> Blanks !! (if |r.value.0| > 0 then {r.value.0[0], r.value.0[|r.value.0| - 1]} else {})
  {
    if IsSkipped(line) then None
    else match IndexOf(line, '=')
      case None => None
      case Some(eq) => Some((ParseKey(line[..eq]), ParseValue(line[eq + 1..])))
  }

  /** parseLine: stores the pair a line holds unless its key came out
      empty. At most one key changes and the empty key is never stored. */
  function ParseLine(m: map<string, string>, line: string): (r: map<string, string>)
    ensures IsSkipped(line) || '=' !in line ==> r == m
    ensures "" in r ==> "" in m
    ensures forall k :: k in m ==> k in r
  {
    match ParsePair(line)
    case None => m
    case Some((key, value)) => if key == "" then m else m[key := value]
  }

  /** The split happens at the first '=': whatever follows it, further
      '=' signs included, belongs to the value. */
  lemma SplitAtFirstEquals(before: string, after: string)
    requires '=' !in before && !IsSkipped(before + "=" + after)
    ensures ParsePair(before + "=" + after) == Some((ParseKey(before), ParseValue(after)))
  {
    var line := before + "=" + after;
    assert line[|before|] == '=';
    assert line[..|before|] == before;
    assert line[|before| + 1..] == after;
    assert IndexOf(line, '=') == Some(|before|);
  }

  lemma StorePair(m: map<string, string>, line: string, key: string, value: string)
    requires ParsePair(line) == Some((key, value)) && key != ""
    ensures ParseLine(m, line) == m[key := value]
  {
  }

  lemma TrimLeftStops(s: string, cs: set<char>)
    requires |s| > 0 && s[0] !in cs
    ensures TrimLeft(s, cs) == s
  {
  }

  lemma TrimRightStops(s: string, cs: set<char>)
    requires |s| > 0 && s[|s| - 1] !in cs
    ensures TrimRight(s, cs) == s
  {
  }

  /** A key the parser reads back unchanged. */
  predicate PlainKey(key: string) {
    |key| > 0 && '=' !in key && key[0] !in Blanks && key[|key| - 1] !in Blanks && key[0] != '#' &&
    !(|key| > 1 && key[0] == '/' && key[1] == '/')
  }

  lemma PaddedKey(key: string)
    requires PlainKey(key)
    ensures ParseKey(key + " ") == key
    ensures '=' !in key + " "
  {
    var s := key + " ";
    TrimLeftStops(s, Blanks);
    assert s[..|s| - 1] == key;
    TrimRightStops(key, Blanks);
  }

  lemma QuotedValue(value: string)
    ensures ParseValue(" \"" + value + "\"") == value
  {
    var quoted := "\"" + value + "\"";
    QuotedShape(value);
    TrimLeftOneBlank(quoted);
    TrimRightStops(quoted, TrailingBlanks);
    Unquoted(value);
  }

  lemma QuotedShape(value: string)
    ensures " \"" + value + "\"" == " " + ("\"" + value + "\"")
  {
  }

  lemma TrimLeftOneBlank(s: string)
    requires |s| > 0 && s[0] == '"'
    ensures TrimLeft(" " + s, Blanks) == s
  {
    assert (" " + s)[1..] == s;
    TrimLeftStops(s, Blanks);
  }

  lemma Unquoted(value: string)
    ensures Unquote("\"" + value + "\"") == value
  {
    var quoted := "\"" + value + "\"";
    assert quoted[1..|quoted| - 1] == value;
  }

  lemma PlainKeyStartsLine(key: string, rest: string)
    requires PlainKey(key) && (|key| == 1 && |rest| > 0 ==> rest[0] != '/')
    ensures !IsSkipped(key + rest)
  {
    var line := key + rest;
    assert line[0] == key[0];
    assert |key| > 1 ==> line[1] == key[1];
  }

  /** The quoted line splits after the padded key. */
  lemma QuotedLineShape(key: string, value: string)
    ensures key + " = \"" + value + "\"" == (key + " ") + "=" + (" \"" + value + "\"")
    ensures key + " = \"" + value + "\"" == key + (" =" + (" \"" + value + "\""))
  {
  }

  lemma QuotedPair(key: string, value: string)
    requires PlainKey(key)
    ensures ParsePair(key + " = \"" + value + "\"") == Some((key, value))
  {
    var after := " \"" + value + "\"";
    QuotedLineShape(key, value);
    PaddedKey(key);
    QuotedValue(value);
    PlainKeyStartsLine(key, " =" + after);
    SplitAtFirstEquals(key + " ", after);
  }

  /** Writing `key = "value"` and parsing it back stores exactly `value`,
      whatever it contains: further '=' signs, blanks, quotes. */
  lemma QuotedLineRoundTrip(m: map<string, string>, key: string, value: string)
    requires PlainKey(key)
    ensures ParseLine(m, key + " = \"" + value + "\"") == m[key := value]
  {
    QuotedPair(key, value);
    StorePair(m, key + " = \"" + value + "\"", key, value);
  }

  lemma PlainValue(value: string)
    requires |value| > 0 ==> value[0] !in Blanks && value[|value| - 1] !in TrailingBlanks
    requires |value| >= 2 ==> value[0] != value[|value| - 1] || value[0] !in {'"', '\''}
    ensures ParseValue(value) == value
  {
    if |value| > 0 {
      TrimLeftStops(value, Blanks);
      TrimRightStops(value, TrailingBlanks);
    }
  }

  /** An unquoted value without surrounding blanks is stored as written. */
  lemma PlainLineRoundTrip(m: map<string, string>, key: string, value: string)
    requires PlainKey(key)
    requires |value| > 0 ==> value[0] !in Blanks && value[|value| - 1] !in TrailingBlanks
    requires |value| >= 2 ==> value[0] != value[|value| - 1] || value[0] !in {'"', '\''}
    ensures ParseLine(m, key + "=" + value) == m[key := value]
  {
    TrimLeftStops(key, Blanks);
    TrimRightStops(key, Blanks);
    PlainValue(value);
    PlainKeyStartsLine(key, "=" + value);
    assert key + ("=" + value) == key + "=" + value;
    SplitAtFirstEquals(key, value);
    StorePair(m, key + "=" + value, key, value);
  }

  lemma IndentedKey(name: string)
    requires '=' !in name && |name| > 0 && name[|name| - 1] !in Blanks
    ensures '=' !in " #" + name && ParseKey(" #" + name) == "#" + name
  {
    var before := " #" + name;
    assert before[1..] == "#" + name;
    assert forall i :: 2 <= i < |before| ==> before[i] == name[i - 2];
    TrimLeftStops("#" + name, Blanks);
    TrimRightStops("#" + name, Blanks);
  }

  /** The comment test looks only at the raw first character: an indented
      '#' line is an ordinary entry whose key starts with '#'. */
  lemma IndentedCommentIsAnEntry(m: map<string, string>, name: string, value: string)
    requires '=' !in name && |name| > 0 && name[|name| - 1] !in Blanks
    ensures ParseLine(m, " #" + name + "=" + value) == m["#" + name := ParseValue(value)]
  {
    IndentedKey(name);
    var line := " #" + name + "=" + value;
    assert line[0] == ' ';
    SplitAtFirstEquals(" #" + name, value);
    StorePair(m, line, "#" + name, ParseValue(value));
  }

  function GetString(c: Config, key: string, default: string := ""): (r: string)
    ensures key in c.entries ==> r == c.entries[key]
    ensures key !in c.entries ==> r == default
  {
    if key in c.entries then c.entries[key] else default
  }

  predicate HasKey(c: Config, key: string) {
    key in c.entries
  }

  function Get(c: Config, key: string): (r: Option<string>)
    ensures r.Some? <==> HasKey(c, key)
    ensures r.Some? ==> r.value == GetString(c, key)
  {
    if key in c.entries then Some(c.entries[key]) else None
  }

  function Set(c: Config, key: string, value: string): (r: Config)
    ensures r.entries.Keys == c.entries.Keys + {key}
    ensures r.isLoaded == c.isLoaded
  {
    c.(entries := c.entries[key := value])
  }

  function Clear(c: Config): (r: Config)
    ensures forall k :: !HasKey(r, k)
    ensures !r.isLoaded
  {
    Config(map[], false)
  }

  /** set then get returns the value set; other keys are unaffected;
      after clear every lookup falls back to its default. */
  lemma SetGetClear(c: Config, key: string, value: string, other: string, default: string)
    requires other != key
    ensures GetString(Set(c, key, value), key, default) == value
    ensures Get(Set(c, key, value), key) == Some(value)
    ensures Get(Set(c, key, value), other) == Get(c, other)
    ensures GetString(Clear(c), key, default) == default && Get(Clear(c), key) == None
  {
  }

  const MinInt32: int := -0x8000_0000
  const MaxInt32: int := 0x7FFF_FFFF

  /** What isspace accepts in the "C" locale. */
  const Spaces: set<char> := {' ', '\t', '\n', '\r', 11 as char, 12 as char}

  /** The longest prefix of decimal digits. */
  function LeadingDigits(s: string): (r: string)
    ensures |r| <= |s| && r == s[..|r|] && AllDigits(r)
    ensures |r| < |s| ==> !IsDigit(s[|r|])
  {
    if |s| > 0 && IsDigit(s[0]) then [s[0]] + LeadingDigits(s[1..]) else ""
  }

  /** std::stoi: optional leading white space, an optional sign, then as
      many digits as follow; no digits or a value outside the 32-bit
      range is an error (None). Anything after the digits is ignored. */
  function StoI(s: string): (r: Option<int>)
    ensures r.Some? ==> MinInt32 <= r.value <= MaxInt32
  {
    SignAndDigits(TrimLeft(s, Spaces))
  }

  /** std::stoi once the leading white space is gone. */
  function SignAndDigits(t: string): (r: Option<int>)
    ensures r.Some? ==> MinInt32 <= r.value <= MaxInt32
  {
    if |t| > 0 && t[0] == '-' then SignedValue(true, LeadingDigits(t[1..]))
    else if |t| > 0 && t[0] == '+' then SignedValue(false, LeadingDigits(t[1..]))
    else SignedValue(false, LeadingDigits(t))
  }

  /** The number the sign and digits denote, if there are digits and it fits in 32 bits. */
  function SignedValue(negative: bool, digits: string): (r: Option<int>)
    requires AllDigits(digits)
    ensures r.Some? ==> MinInt32 <= r.value <= MaxInt32
    ensures r.Some? ==> r.value == if negative then -(DecimalValue(digits) as int) else DecimalValue(digits)
    ensures r.Some? <==> digits != "" &&
                         MinInt32 <= (if negative then -(DecimalValue(digits) as int) else DecimalValue(digits)) <= MaxInt32
  {
    if digits == "" then None
    else
      var n: int := if negative then -(DecimalValue(digits) as int) else DecimalValue(digits);
      if MinInt32 <= n <= MaxInt32 then Some(n) else None
  }

  /** The value std::stoi reads from text of the form white space, an
      optional sign, digits, then anything that is not a digit: the signed
      number when it fits in 32 bits, otherwise an error. */
  lemma StoIReads(ws: string, sign: string, digits: string, rest: string)
    requires forall i :: 0 <= i < |ws| ==> ws[i] in Spaces
    requires sign == "" || sign == "-" || sign == "+"
    requires AllDigits(digits) && |digits| > 0
    requires rest == "" || !IsDigit(rest[0])
    ensures var n: int := if sign == "-" then -(DecimalValue(digits) as int) else DecimalValue(digits);
            StoI(ws + sign + digits + rest) == if MinInt32 <= n <= MaxInt32 then Some(n) else None
  {
    StoIReadsSigned(ws, sign, digits, rest);
    SignedValueIs(digits, sign == "-");
  }

  lemma SignedValueIs(digits: string, negative: bool)
    requires AllDigits(digits) && |digits| > 0
    ensures var n: int := if negative then -(DecimalValue(digits) as int) else DecimalValue(digits);
            SignedValue(negative, digits) == if MinInt32 <= n <= MaxInt32 then Some(n) else None
  {
  }

  lemma StoIReadsSigned(ws: string, sign: string, digits: string, rest: string)
    requires forall i :: 0 <= i < |ws| ==> ws[i] in Spaces
    requires sign == "" || sign == "-" || sign == "+"
    requires AllDigits(digits) && |digits| > 0
    requires rest == "" || !IsDigit(rest[0])
    ensures StoI(ws + sign + digits + rest) == SignedValue(sign == "-", digits)
  {
    var s := ws + sign + digits + rest;
    var x := sign + (digits + rest);
    assert s == ws + x;
    if sign == "" {
      assert x[0] == digits[0];
    } else {
      assert x[0] == sign[0];
    }
    TrimLeftSkips(ws, x, Spaces);
    StoIOfTrimmed(s, sign, digits, rest);
  }

  lemma StoIOfTrimmed(s: string, sign: string, digits: string, rest: string)
    requires sign == "" || sign == "-" || sign == "+"
    requires AllDigits(digits) && |digits| > 0
    requires rest == "" || !IsDigit(rest[0])
    requires TrimLeft(s, Spaces) == sign + (digits + rest)
    ensures StoI(s) == SignedValue(sign == "-", digits)
  {
    var t := TrimLeft(s, Spaces);
    LeadingDigitsStop(digits, rest);
    if sign == "" {
      assert t == digits + rest;
      SignAndDigitsUnsigned(t, digits);
    } else {
      assert t[1..] == digits + rest;
      SignAndDigitsSigned(t, digits);
    }
  }

  lemma SignAndDigitsUnsigned(t: string, digits: string)
    requires |digits| > 0 && AllDigits(digits) && LeadingDigits(t) == digits
    ensures SignAndDigits(t) == SignedValue(false, digits)
  {
    assert t[0] == digits[0];
  }

  lemma SignAndDigitsSigned(t: string, digits: string)
    requires |t| > 0 && (t[0] == '-' || t[0] == '+') && LeadingDigits(t[1..]) == digits
    ensures SignAndDigits(t) == SignedValue(t[0] == '-', digits)
  {
  }

  /** Text with no digit after the white space and the optional sign is
      not a number. */
  lemma StoINoDigits(ws: string, sign: string, rest: string)
    requires forall i :: 0 <= i < |ws| ==> ws[i] in Spaces
    requires sign == "" || sign == "-" || sign == "+"
    requires rest == "" || !IsDigit(rest[0])
    requires sign == "" && rest != "" ==> rest[0] !in Spaces && rest[0] != '-' && rest[0] != '+'
    ensures StoI(ws + sign + rest) == None
  {
    var s := ws + sign + rest;
    var x := sign + rest;
    assert s == ws + x;
    if sign != "" {
      assert x[0] == sign[0];
    }
    TrimLeftSkips(ws, x, Spaces);
    NoDigitsTrimmed(s, sign, rest);
  }

  lemma NoDigitsTrimmed(s: string, sign: string, rest: string)
    requires sign == "" || sign == "-" || sign == "+"
    requires rest == "" || !IsDigit(rest[0])
    requires sign == "" && rest != "" ==> rest[0] != '-' && rest[0] != '+'
    requires TrimLeft(s, Spaces) == sign + rest
    ensures StoI(s) == None
  {
    LeadingDigitsStop("", rest);
    assert "" + rest == rest;
    if sign == "" {
      NoDigitsUnsigned(rest);
    } else {
      assert (sign + rest)[1..] == rest;
      SignAndDigitsSigned(sign + rest, "");
    }
  }

  lemma NoDigitsUnsigned(t: string)
    requires t == "" || (t[0] != '-' && t[0] != '+')
    requires LeadingDigits(t) == ""
    ensures SignAndDigits(t) == None
  {
  }

  /** Leading characters of `cs` are dropped up to the first one that is not. */
  lemma {:induction false} TrimLeftSkips(ws: string, x: string, cs: set<char>)
    requires forall i :: 0 <= i < |ws| ==> ws[i] in cs
    requires x == "" || x[0] !in cs
    ensures TrimLeft(ws + x, cs) == x
    decreases |ws|
  {
    if |ws| > 0 {
      assert (ws + x)[1..] == ws[1..] + x;
      TrimLeftSkips(ws[1..], x, cs);
    } else {
      assert ws + x == x;
    }
  }

  /** The digits are read up to the first character that is not one. */
  lemma {:induction false} LeadingDigitsStop(d: string, rest: string)
    requires AllDigits(d) && (rest == "" || !IsDigit(rest[0]))
    ensures LeadingDigits(d + rest) == d
    decreases |d|
  {
    if |d| > 0 {
      assert (d + rest)[1..] == d[1..] + rest;
      LeadingDigitsStop(d[1..], rest);
    } else {
      assert d + rest == rest;
    }
  }

  lemma {:induction false} LeadingDigitsOfDigits(s: string)
    requires AllDigits(s)
    ensures LeadingDigits(s) == s
    decreases |s|
  {
    if |s| > 0 {
      LeadingDigitsOfDigits(s[1..]);
    }
  }

  lemma StoIUnsigned(d: string)
    requires AllDigits(d) && |d| > 0 && d[0] != '-' && d[0] != '+' && d[0] !in Spaces
    ensures StoI(d) == SignedValue(false, d)
  {
    TrimLeftStops(d, Spaces);
    LeadingDigitsOfDigits(d);
  }

  lemma StoINegative(d: string)
    requires AllDigits(d) && |d| > 0
    ensures StoI("-" + d) == SignedValue(true, d)
  {
    var s := "-" + d;
    TrimLeftStops(s, Spaces);
    assert s[1..] == d;
    LeadingDigitsOfDigits(d);
  }

  /** std::to_string and std::stoi are inverse on the 32-bit range. */
  lemma StoIRoundTrip(i: int)
    requires MinInt32 <= i <= MaxInt32
    ensures StoI(IntToDecimal(i)) == Some(i)
  {
    if i < 0 {
      NegativeRoundTrip(-i);
    } else {
      NaturalRoundTrip(i);
    }
  }

  lemma NegativeRoundTrip(n: nat)
    requires 0 < n <= -MinInt32
    ensures StoI(IntToDecimal(-(n as int))) == Some(-(n as int))
  {
    var d := NatToDecimal(n);
    DecimalRoundTrip(n);
    NegativeText(n);
    StoINegative(d);
    NegativeValue(d, n);
  }

  lemma NegativeText(n: nat)
    requires n > 0
    ensures IntToDecimal(-(n as int)) == "-" + NatToDecimal(n)
  {
  }

  lemma NegativeValue(d: string, n: nat)
    requires AllDigits(d) && |d| > 0 && DecimalValue(d) == n
    requires 0 < n <= -MinInt32
    ensures SignedValue(true, d) == Some(-(n as int))
  {
  }

  lemma NaturalRoundTrip(n: nat)
    requires n <= MaxInt32
    ensures StoI(IntToDecimal(n)) == Some(n)
  {
    var d := NatToDecimal(n);
    DecimalRoundTrip(n);
    assert IntToDecimal(n) == d;
    StoIUnsigned(d);
  }

  /** getInt: the parsed number, or the default when the key is missing or
      the text is not a number (both exceptions of std::stoi are caught). */
  function GetInt(c: Config, key: string, default: int := 0): (r: int)
    ensures key !in c.entries ==> r == default
    ensures key in c.entries && StoI(c.entries[key]).None? ==> r == default
    ensures key in c.entries && StoI(c.entries[key]).Some? ==> r == StoI(c.entries[key]).value
  {
    if key in c.entries then StoI(c.entries[key]).GetOr(default) else default
  }

  lemma GetIntAfterSet(c: Config, key: string, i: int, default: int)
    requires MinInt32 <= i <= MaxInt32
    ensures GetInt(Set(c, key, IntToDecimal(i)), key, default) == i
  {
    StoIRoundTrip(i);
  }

  /** Text that does not start with a number reads as the default. */
  lemma GetIntOfText(c: Config, key: string, default: int)
    ensures GetInt(Set(c, key, "abc"), key, default) == default
  {
    assert StoI("abc") == None by {
      TrimLeftStops("abc", Spaces);
      assert LeadingDigits("abc") == "";
    }
  }

  const TrueWords: set<string> := {"true", "1", "yes", "on"}
  const FalseWords: set<string> := {"false", "0", "no", "off"}

  /** getBool: the case-insensitive vocabulary, else the default. */
  function GetBool(c: Config, key: string, default: bool := false): (r: bool)
    ensures key !in c.entries ==> r == default
  {
    if key in c.entries then
      var v := ToLower(c.entries[key]);
      if v == "true" || v == "1" || v == "yes" || v == "on" then true
      else if v == "false" || v == "0" || v == "no" || v == "off" then false
      else default
    else default
  }

  /** The vocabularies are disjoint and every word is read regardless of case. */
  lemma GetBoolVocabulary(c: Config, key: string, value: string, default: bool)
    ensures TrueWords !! FalseWords
    ensures ToLower(value) in TrueWords ==> GetBool(Set(c, key, value), key, default)
    ensures ToLower(value) in FalseWords ==> !GetBool(Set(c, key, value), key, default)
    ensures ToLower(value) !in TrueWords + FalseWords ==> GetBool(Set(c, key, value), key, default) == default
  {
  }

  lemma GetBoolIgnoresCase(c: Config, key: string, default: bool)
    ensures GetBool(Set(c, key, "TRUE"), key, default) && GetBool(Set(c, key, "Yes"), key, default)
    ensures !GetBool(Set(c, key, "OFF"), key, default)
  {
    assert ToLower("TRUE") == "true";
    assert ToLower("Yes") == "yes";
    assert ToLower("OFF") == "off";
  }
}
