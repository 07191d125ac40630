/** `escapeHtml(text)` of static/js/script.js: every `& < > " '` is replaced
    through a constant map by its HTML entity, before a chat message is put
    into the page. */
module ClientHtml {
  predicate IsSpecial(c: char)
  {
    c == '&' || c == '<' || c == '>' || c == '"' || c == '\''
  }

  /** The map of `escapeHtml`; any other character stands for itself. */
  function EntityOf(c: char): (e: string)
    ensures IsSpecial(c) ==> |e| > 1 && e[0] == '&' && e[|e| - 1] == ';'
    ensures !IsSpecial(c) ==> e == [c]
  {
    if c == '&' then "&amp;"
    else if c == '<' then "&lt;"
    else if c == '>' then "&gt;"
    else if c == '"' then "&quot;"
    else if c == '\'' then "&#039;"
    else [c]
  }

  /** `text.replace(/[&<>"']/g, (m) => map[m])`: the global replace visits
      each character once, so the result is the entity images concatenated. */
  function EscapeHtml(text: string): (r: string)
    ensures |r| >= |text|
    ensures r == [] <==> text == []
  {
    if text == [] then "" else EntityOf(text[0]) + EscapeHtml(text[1..])
  }

  /** Markup characters: everything the escaped text must not contain. */
  predicate NoMarkup(s: string)
  {
    forall i :: 0 <= i < |s| ==> s[i] != '<' && s[i] != '>' && s[i] != '"' && s[i] != '\''
  }

  /** Escaping distributes over concatenation. */
  lemma {:induction false} EscapeConcat(a: string, b: string)
    ensures EscapeHtml(a + b) == EscapeHtml(a) + EscapeHtml(b)
    decreases |a|
  {
    if a != [] {
      assert (a + b)[0] == a[0];
      assert (a + b)[1..] == a[1..] + b;
      EscapeConcat(a[1..], b);
    } else {
      assert a + b == b;
    }
  }

  /** One character is replaced by its entity, or kept as it is. */
  lemma EscapeSingle(c: char)
    ensures EscapeHtml([c]) == EntityOf(c)
    ensures !IsSpecial(c) ==> EscapeHtml([c]) == [c]
  {
    assert [c][1..] == [];
  }

  /** The output contains no `<`, `>`, `"` or `'`. */
  lemma {:induction false} EscapeNoMarkup(text: string)
    ensures NoMarkup(EscapeHtml(text))
    decreases |text|
  {
    if text != [] {
      EscapeNoMarkup(text[1..]);
      var e, rest := EntityOf(text[0]), EscapeHtml(text[1..]);
      assert NoMarkup(e);
      forall i | 0 <= i < |e + rest|
        ensures (e + rest)[i] != '<' && (e + rest)[i] != '>' && (e + rest)[i] != '"' && (e + rest)[i] != '\''
      {
        if i >= |e| {
          assert (e + rest)[i] == rest[i - |e|];
        }
      }
    }
  }

  /** The reverse mapping, the partner of `EscapeHtml` (the page never
      unescapes): entities are read back to their characters left to right. */
  function Unescape(s: string): string
    decreases |s|
  {
    if s == [] then ""
    else if "&amp;" <= s then "&" + Unescape(s[5..])
    else if "&lt;" <= s then "<" + Unescape(s[4..])
    else if "&gt;" <= s then ">" + Unescape(s[4..])
    else if "&quot;" <= s then "\"" + Unescape(s[6..])
    else if "&#039;" <= s then "'" + Unescape(s[6..])
    else [s[0]] + Unescape(s[1..])
  }

  lemma UnescapeEntity(c: char, rest: string)
    ensures Unescape(EntityOf(c) + rest) == [c] + Unescape(rest)
  {
    var e := EntityOf(c);
    var s := e + rest;
    assert s[..|e|] == e;
    assert s[|e|..] == rest;
    if c == '&' {
      assert "&amp;" <= s;
    } else if c == '<' {
      assert s[1] == 'l' && "&amp;"[1] == 'a';
      assert "&lt;" <= s;
    } else if c == '>' {
      assert s[1] == 'g' && "&amp;"[1] == 'a' && "&lt;"[1] == 'l';
      assert "&gt;" <= s;
    } else if c == '"' {
      assert s[1] == 'q' && "&amp;"[1] == 'a' && "&lt;"[1] == 'l' && "&gt;"[1] == 'g';
      assert "&quot;" <= s;
    } else if c == '\'' {
      assert s[1] == '#' && "&amp;"[1] == 'a' && "&lt;"[1] == 'l' && "&gt;"[1] == 'g' && "&quot;"[1] == 'q';
      assert "&#039;" <= s;
    } else {
      assert s[0] == c && s[1..] == rest;
      assert !("&amp;" <= s) && !("&lt;" <= s) && !("&gt;" <= s)
        && !("&quot;" <= s) && !("&#039;" <= s);
    }
  }

  /** Unescaping an escaped text gives back the text, so no two texts
      escape to the same output. */
  lemma {:induction false} UnescapeEscape(text: string)
    ensures Unescape(EscapeHtml(text)) == text
    decreases |text|
  {
    if text != [] {
      UnescapeEntity(text[0], EscapeHtml(text[1..]));
      UnescapeEscape(text[1..]);
      assert text == [text[0]] + text[1..];
    }
  }

  lemma EscapeInjective(a: string, b: string)
    ensures EscapeHtml(a) == EscapeHtml(b) ==> a == b
  {
    UnescapeEscape(a);
    UnescapeEscape(b);
  }

  /** Escaping leaves a text unchanged exactly when it holds none of
      `& < > " '`. */
  lemma {:induction false} EscapeIdentity(text: string)
    ensures EscapeHtml(text) == text <==> forall i :: 0 <= i < |text| ==> !IsSpecial(text[i])
    decreases |text|
  {
    if text != [] {
      EscapeIdentity(text[1..]);
      var e, rest := EntityOf(text[0]), EscapeHtml(text[1..]);
      if IsSpecial(text[0]) {
        // An entity is longer than the character it replaces.
        assert |e + rest| > |text|;
      } else {
        assert e + rest == [text[0]] + rest;
        assert text == [text[0]] + text[1..];
        if forall i :: 0 <= i < |text| ==> !IsSpecial(text[i]) {
          assert forall i :: 0 <= i < |text[1..]| ==> !IsSpecial(text[1..][i]) by {
            forall i | 0 <= i < |text[1..]| ensures !IsSpecial(text[1..][i]) {
              assert text[1..][i] == text[i + 1];
            }
          }
        }
        if EscapeHtml(text) == text {
          assert rest == text[1..];
        }
        if forall i :: 0 <= i < |text[1..]| ==> !IsSpecial(text[1..][i]) {
          forall i | 0 <= i < |text| ensures !IsSpecial(text[i]) {
            if i > 0 {
              assert text[i] == text[1..][i - 1];
            }
          }
        }
      }
    }
  }

  /** A concrete case: a bold tag comes out as inert text. */
  lemma EscapeExample()
    ensures EscapeHtml("<b>") == "&lt;b&gt;"
  {
    EscapeSingle('<');
    EscapeSingle('b');
    EscapeSingle('>');
    EscapeConcat("<", "b>");
    EscapeConcat("b", ">");
    assert "<b>" == "<" + "b>";
    assert "b>" == "b" + ">";
  }
}
