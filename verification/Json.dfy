// JSON values as Python sees them, and the text helpers the invoice code applies to them.
// Numbers are reals.  What Python's `str`, `float`, `int`, `Decimal` and `upper` do to a text is a
// parameter: everything is proved for every such environment.
module Json {
  import opened Wrappers

  datatype Json =
    | JNull
    | JBool(b: bool)
    | JNum(n: real)
    | JStr(s: string)
    | JList(items: seq<Json>)
    | JDict(entries: map<string, Json>)

  // A dictionary.
  type Fields = map<string, Json>

  datatype Env = Env(
    isSpace: char -> bool,
    render: Json -> string,                  // str() of a value that is not a string
    upper: string -> string,
    parseFloat: string -> Option<real>,
    parseInt: string -> Option<int>,
    parseDecimal: string -> Option<real>,
    roundPrice: real -> Option<real>,        // quantize to cents; None when it overflows
    supplierNamed: string -> Option<int>)    // the supplier table, searched by name

  // dict.get: JNull for a missing key.
  function Get(d: Fields, key: string): Json {
    if key in d then d[key] else JNull
  }

  function Text(env: Env, v: Json): string {
    if v.JStr? then v.s else env.render(v)
  }

  // Python's truth value.
  predicate Truthy(v: Json) {
    match v
    case JNull => false
    case JBool(b) => b
    case JNum(n) => n != 0.0
    case JStr(s) => s != ""
    case JList(items) => items != []
    case JDict(entries) => entries != map[]
  }

  lemma TruthyExactly(v: Json)
    ensures !Truthy(v) <==> v in [JNull, JBool(false), JNum(0.0), JStr(""), JList([]), JDict(map[])]
  {
  }

  function StripLeft(env: Env, s: string): string {
    if s != "" && env.isSpace(s[0]) then StripLeft(env, s[1..]) else s
  }

  function StripRight(env: Env, s: string): string {
    if s != "" && env.isSpace(s[|s| - 1]) then StripRight(env, s[..|s| - 1]) else s
  }

  function Strip(env: Env, s: string): string {
    StripRight(env, StripLeft(env, s))
  }

  // str.replace(c, '') for a single character.
  function Without(s: string, c: char): string {
    if s == "" then "" else (if s[0] == c then "" else [s[0]]) + Without(s[1..], c)
  }

  predicate Trimmed(env: Env, s: string) {
    s == "" || (!env.isSpace(s[0]) && !env.isSpace(s[|s| - 1]))
  }

  lemma {:induction false} StripRightTrims(env: Env, s: string)
    requires s == "" || !env.isSpace(s[0])
    ensures Trimmed(env, StripRight(env, s))
  {
    if s != "" && env.isSpace(s[|s| - 1]) {
      StripRightTrims(env, s[..|s| - 1]);
    }
  }

  lemma {:induction false} StripLeftTrims(env: Env, s: string)
    ensures var t := StripLeft(env, s); t == "" || !env.isSpace(t[0])
  {
    if s != "" && env.isSpace(s[0]) {
      StripLeftTrims(env, s[1..]);
    }
  }

  predicate Blanks(env: Env, s: string) {
    forall k :: 0 <= k < |s| ==> env.isSpace(s[k])
  }

  lemma {:induction false} StripLeftDropsBlanks(env: Env, s: string) returns (i: nat)
    ensures i <= |s| && StripLeft(env, s) == s[i..] && Blanks(env, s[..i])
  {
    i := 0;
    if s != "" && env.isSpace(s[0]) {
      i := StripLeftDropsBlanks(env, s[1..]);
      assert s[..i + 1] == [s[0]] + s[1..][..i];
      i := i + 1;
    }
  }

  lemma {:induction false} StripRightDropsBlanks(env: Env, s: string) returns (j: nat)
    ensures j <= |s| && StripRight(env, s) == s[..j] && Blanks(env, s[j..])
  {
    j := |s|;
    if s != "" && env.isSpace(s[|s| - 1]) {
      j := StripRightDropsBlanks(env, s[..|s| - 1]);
      assert s[j..] == s[..|s| - 1][j..] + [s[|s| - 1]];
    }
  }

  // Stripping drops blanks from both ends and nothing else.
  lemma StripDropsOuterBlanks(env: Env, s: string)
    ensures exists a, b :: s == a + Strip(env, s) + b && Blanks(env, a) && Blanks(env, b)
  {
    var i := StripLeftDropsBlanks(env, s);
    var t := StripLeft(env, s);
    var j := StripRightDropsBlanks(env, t);
    assert s == s[..i] + t && t == Strip(env, s) + t[j..];
    assert s == s[..i] + Strip(env, s) + t[j..];
  }

  // The text without its dollar signs and commas.
  function Plain(s: string): string {
    if s == "" then "" else (if s[0] == '$' || s[0] == ',' then "" else [s[0]]) + Plain(s[1..])
  }

  lemma {:induction false} WithoutBothIsPlain(s: string)
    ensures Without(Without(s, '$'), ',') == Plain(s)
  {
    if s != "" {
      WithoutBothIsPlain(s[1..]);
      var rest := Without(s[1..], '$');
      if s[0] == '$' {
        assert Without(s, '$') == rest;
      } else {
        var t := [s[0]] + rest;
        assert Without(s, '$') == t && t[0] == s[0] && t[1..] == rest;
        assert Without(t, ',') == (if s[0] == ',' then "" else [s[0]]) + Without(rest, ',');
      }
    }
  }

  // A stripped text has no outer blanks, and stripping it again changes nothing.
  lemma StripTrims(env: Env, s: string)
    ensures Trimmed(env, Strip(env, s)) && Strip(env, Strip(env, s)) == Strip(env, s)
  {
    StripLeftTrims(env, s);
    StripRightTrims(env, StripLeft(env, s));
  }
}
