/**
 * Escaping of outbound text for the MarkdownV2 formatting of the Telegram Bot API: a
 * backslash goes before every character that formatting reserves. The backslash itself
 * is not among them, so text is copied through it unchanged.
 */
module Markdown {

  /** `_*[]()~` + "`" + `>#+-=|{}.!`: the characters MarkdownV2 reads as markup. */
  predicate IsReserved(c: char)
  {
    c in {'_', '*', '[', ']', '(', ')', '~', '`', '>', '#', '+', '-', '=', '|', '{', '}', '.', '!'}
  }

  /** `escapeMarkdownV2`. The output never begins with a reserved character. */
  function EscapeMarkdownV2(text: string): (r: string)
    ensures r == [] || !IsReserved(r[0])
  {
    if text == [] then []
    else (if IsReserved(text[0]) then ['\\', text[0]] else [text[0]]) + EscapeMarkdownV2(text[1..])
  }

  function CountReserved(text: string): nat
  {
    if text == [] then 0 else (if IsReserved(text[0]) then 1 else 0) + CountReserved(text[1..])
  }

  /** Removes the backslash in front of each reserved character; copies everything else. */
  function Unescape(s: string): string
    decreases |s|
  {
    if s == [] then []
    else if s[0] == '\\' && |s| >= 2 && IsReserved(s[1]) then [s[1]] + Unescape(s[2..])
    else [s[0]] + Unescape(s[1..])
  }

  /** Exactly one character is added per reserved character. */
  lemma {:induction false} EscapeLength(text: string)
    ensures |EscapeMarkdownV2(text)| == |text| + CountReserved(text)
  {
    if text != [] {
      EscapeLength(text[1..]);
    }
  }

  /** Deleting the inserted backslashes gives back the text, backslashes of the text included. */
  lemma {:induction false} UnescapeEscape(text: string)
    ensures Unescape(EscapeMarkdownV2(text)) == text
  {
    if text != [] {
      var c, rest := text[0], EscapeMarkdownV2(text[1..]);
      UnescapeEscape(text[1..]);
      if IsReserved(c) {
        assert EscapeMarkdownV2(text) == ['\\', c] + rest;
        assert (['\\', c] + rest)[2..] == rest;
      } else {
        assert EscapeMarkdownV2(text) == [c] + rest;
        assert ([c] + rest)[1..] == rest;
      }
      assert text == [c] + text[1..];
    }
  }

  /** In the output every reserved character has a backslash right before it. */
  lemma {:induction false} ReservedArePreceded(text: string)
    ensures forall i :: 0 <= i < |EscapeMarkdownV2(text)| && IsReserved(EscapeMarkdownV2(text)[i]) ==>
      i > 0 && EscapeMarkdownV2(text)[i - 1] == '\\'
  {
    if text != [] {
      ReservedArePreceded(text[1..]);
      var head := if IsReserved(text[0]) then ['\\', text[0]] else [text[0]];
      var rest := EscapeMarkdownV2(text[1..]);
      assert EscapeMarkdownV2(text) == head + rest;
      forall i | 0 <= i < |head + rest| && IsReserved((head + rest)[i])
        ensures i > 0 && (head + rest)[i - 1] == '\\'
      {
        if i >= |head| {
          assert (head + rest)[i] == rest[i - |head|];
          if i > |head| {
            assert (head + rest)[i - 1] == rest[i - 1 - |head|];
          }
        }
      }
    }
  }

  /** Escaping works character by character: it distributes over concatenation. */
  lemma {:induction false} EscapeConcat(a: string, b: string)
    ensures EscapeMarkdownV2(a + b) == EscapeMarkdownV2(a) + EscapeMarkdownV2(b)
  {
    if a != [] {
      EscapeConcat(a[1..], b);
      assert (a + b)[1..] == a[1..] + b;
    } else {
      assert a + b == b;
    }
  }

  /** Text without reserved characters is sent unchanged. */
  lemma {:induction false} EscapePlain(text: string)
    requires CountReserved(text) == 0
    ensures EscapeMarkdownV2(text) == text
  {
    if text != [] {
      EscapePlain(text[1..]);
      assert text == [text[0]] + text[1..];
    }
  }

  /**
   * Escaping is not idempotent: an already escaped `_` gains a second backslash before the
   * `_`, while its first backslash is copied.
   */
  lemma EscapeNotIdempotent()
    ensures EscapeMarkdownV2("_") == "\\_"
    ensures EscapeMarkdownV2(EscapeMarkdownV2("_")) == "\\\\_"
    ensures EscapeMarkdownV2(EscapeMarkdownV2("_")) != EscapeMarkdownV2("_")
  {
    assert EscapeMarkdownV2("_") == ['\\', '_'] + EscapeMarkdownV2([]);
    assert "\\_"[1..] == "_";
    assert EscapeMarkdownV2("\\_") == ['\\'] + EscapeMarkdownV2("_");
  }
}
