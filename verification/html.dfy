/** internal/common/html.go: escaping of text placed into SVG/HTML. */
module Html {
  const Nbsp: char := ' '

  /** The replacement of one character. */
  function EncodeChar(c: char): (r: string)
    ensures c == '&' ==> r == "&#38;"
    ensures c == '<' ==> r == "&#60;"
    ensures c == '>' ==> r == "&#62;"
    ensures c == Nbsp ==> r == "&#160;"
    ensures c !in {'&', '<', '>', Nbsp} ==> r == [c]
    ensures '<' !in r && '>' !in r && Nbsp !in r
  {
    if c == '&' then "&#38;"
    else if c == '<' then "&#60;"
    else if c == '>' then "&#62;"
    else if c == Nbsp then "&#160;"
    else [c]
  }

  /** EncodeHTML: one left-to-right pass; the text a replacement introduces is not looked at again. */
  function EncodeHTML(value: string): (r: string)
    ensures '<' !in r && '>' !in r && Nbsp !in r
    ensures |r| >= |value|
  {
    if value == [] then [] else EncodeHTML(value[..|value| - 1]) + EncodeChar(value[|value| - 1])
  }

  /** Encoding works piece by piece: the encoding of a concatenation is the concatenation of encodings. */
  lemma {:induction false} EncodeConcat(a: string, b: string)
    ensures EncodeHTML(a + b) == EncodeHTML(a) + EncodeHTML(b)
    decreases |b|
  {
    if b != [] {
      var b', last := b[..|b| - 1], b[|b| - 1];
      assert (a + b)[..|a + b| - 1] == a + b' && (a + b)[|a + b| - 1] == last;
      calc {
        EncodeHTML(a + b);
        EncodeHTML(a + b') + EncodeChar(last);
        { EncodeConcat(a, b'); }
        (EncodeHTML(a) + EncodeHTML(b')) + EncodeChar(last);
        EncodeHTML(a) + (EncodeHTML(b') + EncodeChar(last));
        EncodeHTML(a) + EncodeHTML(b);
      }
    } else {
      assert a + b == a;
    }
  }

  /** A string with none of the four special characters is returned unchanged. */
  lemma {:induction false} EncodePlain(value: string)
    requires forall i :: 0 <= i < |value| ==> value[i] !in {'&', '<', '>', Nbsp}
    ensures EncodeHTML(value) == value
  {
    if value != [] {
      EncodePlain(value[..|value| - 1]);
    }
  }

  /** The encoding is a single pass, so it is not idempotent on text that contains '&'. */
  lemma NotIdempotent()
    ensures EncodeHTML("<") == "&#60;"
    ensures EncodeHTML(EncodeHTML("<")) != EncodeHTML("<")
  {
    assert EncodeHTML("<") == EncodeHTML([]) + EncodeChar('<');
    var once := "&#60;";
    assert once[..4] == "&#60";
    assert EncodeHTML(once) == EncodeHTML(once[..4]) + EncodeChar(';');
    assert once[..4][..3] == "&#6";
    assert once[..3][..2] == "&#";
    assert once[..2][..1] == "&";
    assert EncodeHTML("&") == EncodeHTML([]) + EncodeChar('&');
    assert EncodeHTML("&#") == EncodeHTML("&") + EncodeChar('#');
    assert EncodeHTML("&#6") == EncodeHTML("&#") + EncodeChar('6');
    assert EncodeHTML("&#60") == EncodeHTML("&#6") + EncodeChar('0');
  }
}
