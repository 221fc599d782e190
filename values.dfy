/** The value tokens both codecs read and write: a token of a record line, an enum member
    name, a colour and a two-component vector. */
module Values {
  import opened Results
  import opened Text
  import opened Numbers

  /** `tokens[i]`, which throws past the end. */
  function TokenAt(tokens: seq<string>, i: nat): (r: Parsed<string>)
    ensures r.Ok? <==> i < |tokens|
    ensures r.Ok? ==> r.value == tokens[i]
    ensures r.Err? ==> r.error == IndexOutOfRange
  {
    if i < |tokens| then Ok(tokens[i]) else Err(IndexOutOfRange)
  }

  /** `ParseFloat(tokens[i])`. */
  function FloatAt(tokens: seq<string>, i: nat): (r: Parsed<Float>)
    ensures r.Ok? ==> i < |tokens| && r == ParseFloat(tokens[i])
  {
    var t :- TokenAt(tokens, i);
    ParseFloat(t)
  }

  /** `Enum.Parse` for an enum whose member names are `names`. */
  function ParseEnum(s: string, names: set<string>): (r: Parsed<string>)
    ensures r.Ok? <==> s in names
    ensures r.Ok? ==> r.value == s
    ensures r.Err? ==> r.error == UnknownName(s)
  {
    if s in names then Ok(s) else Err(UnknownName(s))
  }

  /** `ParseColor`: the first four space-separated numbers as r, g, b, a. */
  function ParseColor(s: string): (r: Parsed<Color>)
    ensures r.Ok? ==> |Split(s, ' ')| >= 4
  {
    var tokens := Split(s, ' ');
    var red :- FloatAt(tokens, 0);
    var green :- FloatAt(tokens, 1);
    var blue :- FloatAt(tokens, 2);
    var alpha :- FloatAt(tokens, 3);
    Ok(Color(red, green, blue, alpha))
  }

  /** `EncodeColor`: r, g, b and a, separated by spaces. */
  function EncodeColor(c: Color): string {
    FormatFloat(c.r) + " " + FormatFloat(c.g) + " " + FormatFloat(c.b) + " " + FormatFloat(c.a)
  }

  /** `EncodeVector` of a `Vector2`: x and y, separated by a space. */
  function EncodeVector2(v: Vec2): string {
    FormatFloat(v.x) + " " + FormatFloat(v.y)
  }

  /** A number's text holds no space, so it is one token, and no line break. */
  lemma NumberHasNoSpace(f: Float)
    ensures ' ' !in FormatFloat(f) && '\n' !in FormatFloat(f)
  {
    var s := FormatFloat(f);
    FormatFloatIsNumberText(f);
    forall i | 0 <= i < |s| ensures s[i] != ' ' {
      NumeralIsNotSeparator(s[i]);
    }
  }

  /** An integer's text holds no space and no line break. */
  lemma IntHasNoSpace(n: int)
    ensures ' ' !in FormatInt(n) && '\n' !in FormatInt(n)
  {
    var s := FormatInt(n);
    forall i | 0 <= i < |s| ensures s[i] != ' ' && s[i] != '\n' {
      NumeralIsNotSeparator(s[i]);
    }
  }

  /** Colours and vectors are written on one line. */
  lemma EncodedValuesHaveNoLineBreak(c: Color, v: Vec2)
    ensures '\n' !in EncodeColor(c) && '\n' !in EncodeVector2(v)
  {
    NumberHasNoSpace(c.r);
    NumberHasNoSpace(c.g);
    NumberHasNoSpace(c.b);
    NumberHasNoSpace(c.a);
    NumberHasNoSpace(v.x);
    NumberHasNoSpace(v.y);
  }

  /** The four numbers of a colour are its four tokens. */
  lemma ColorTokens(c: Color)
    ensures Split(EncodeColor(c), ' ') == [FormatFloat(c.r), FormatFloat(c.g), FormatFloat(c.b), FormatFloat(c.a)]
  {
    var r, g, b, a := FormatFloat(c.r), FormatFloat(c.g), FormatFloat(c.b), FormatFloat(c.a);
    NumberHasNoSpace(c.r);
    NumberHasNoSpace(c.g);
    NumberHasNoSpace(c.b);
    NumberHasNoSpace(c.a);
    JoinCons(b, [a], ' ');
    assert [b] + [a] == [b, a];
    JoinCons(g, [b, a], ' ');
    assert [g] + [b, a] == [g, b, a];
    JoinCons(r, [g, b, a], ' ');
    assert [r] + [g, b, a] == [r, g, b, a];
    assert Join([r, g, b, a], ' ') == EncodeColor(c);
    SplitJoin([r, g, b, a], ' ');
  }

  /** A colour reads back from its text. */
  lemma ParseEncodeColor(c: Color)
    ensures ParseColor(EncodeColor(c)) == Ok(c)
  {
    ColorTokens(c);
    ParseFormatFloat(c.r);
    ParseFormatFloat(c.g);
    ParseFormatFloat(c.b);
    ParseFormatFloat(c.a);
  }

  /** The two numbers of a vector are its two tokens. */
  lemma Vector2Tokens(v: Vec2)
    ensures Split(EncodeVector2(v), ' ') == [FormatFloat(v.x), FormatFloat(v.y)]
  {
    var x, y := FormatFloat(v.x), FormatFloat(v.y);
    NumberHasNoSpace(v.x);
    NumberHasNoSpace(v.y);
    JoinCons(x, [y], ' ');
    assert [x] + [y] == [x, y];
    SplitJoin([x, y], ' ');
  }
}
