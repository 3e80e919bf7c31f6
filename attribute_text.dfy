/** Readers for the two strings of an attribute. They are not part of the
    program: they are reference inverses of the label and value texts, used
    to state that a label determines its layer id and keyframe index and that
    a value determines the four transform numbers, with nothing else mixed in. */
module AttributeText {
  import opened Wrappers
  import opened NumberText

  /** The four numbers a value carries, in the order they are written. */
  datatype Transform = Transform(x: int, y: int, rotation: int, scale: int)

  /** Reads `key` followed by the text of an integer, and returns the integer
      and what follows it. */
  function ReadField(s: string, key: string): (r: Option<(int, string)>) {
    if |key| <= |s| && s[..|key|] == key then
      var t := s[|key|..];
      var n := NumberSpan(t);
      var v :- ParseInt(t[..n]);
      Some((v, t[n..]))
    else None
  }

  /** Reads `Image <id> Keyframe <index>`. */
  function ReadLabel(s: string): (r: Option<(int, int)>) {
    var a :- ReadField(s, "Image ");
    var b :- ReadField(a.1, " Keyframe ");
    if b.1 == "" then Some((a.0, b.0)) else None
  }

  /** Reads `{"x":X,"y":Y,"rotation":R,"scale":S}`. */
  function ReadTransform(s: string): (r: Option<Transform>) {
    var x :- ReadField(s, "{\"x\":");
    var y :- ReadField(x.1, ",\"y\":");
    var r :- ReadField(y.1, ",\"rotation\":");
    var c :- ReadField(r.1, ",\"scale\":");
    if c.1 == "}" then Some(Transform(x.0, y.0, r.0, c.0)) else None
  }

  /** A key, the text of an integer and a rest that does not continue the
      number read back as that integer and that rest. */
  lemma ReadFieldOf(key: string, v: int, rest: string)
    requires rest == [] || !IsNumberChar(rest[0])
    ensures ReadField(key + IntToString(v) + rest, key) == Some((v, rest))
  {
    var w := IntToString(v);
    var s := key + w + rest;
    assert s[..|key|] == key;
    var t := s[|key|..];
    assert t == w + rest;
    IntToStringShape(v);
    NumberSpanConcat(w, rest);
    assert t[..|w|] == w;
    assert t[|w|..] == rest;
  }
}
