/** The string operations of the standard library that several components use. */
module Text {

  /** str.isspace for one ASCII character. */
  predicate IsSpace(c: char) {
    c == ' ' || '\t' <= c <= '\r' || 28 as char <= c <= 31 as char
  }

  predicate Blank(text: string) {
    forall i | 0 <= i < |text| :: IsSpace(text[i])
  }

  function TrimFront(text: string): string {
    if text != "" && IsSpace(text[0]) then TrimFront(text[1..]) else text
  }

  function TrimBack(text: string): string {
    if text != "" && IsSpace(text[|text| - 1]) then TrimBack(text[..|text| - 1]) else text
  }

  /** str.strip() */
  function Trim(text: string): string { TrimBack(TrimFront(text)) }

  /** str.startswith */
  predicate StartsWith(text: string, sub: string) {
    sub == "" || (text != "" && text[0] == sub[0] && StartsWith(text[1..], sub[1..]))
  }

  /** The raw substring test `sub in text`. */
  predicate Contains(text: string, sub: string) {
    StartsWith(text, sub) || (text != "" && Contains(text[1..], sub))
  }

  lemma {:induction false} StartsWithIsPrefix(text: string, sub: string)
    ensures StartsWith(text, sub) <==> |sub| <= |text| && text[..|sub|] == sub
  {
    if sub != "" && text != "" {
      StartsWithIsPrefix(text[1..], sub[1..]);
      if |sub| <= |text| {
        assert text[..|sub|] == [text[0]] + text[1..][..|sub| - 1];
        assert sub == [sub[0]] + sub[1..];
      }
    }
  }

  /** A text begins with another one exactly when something may follow that one to make the text. */
  lemma BeginsMeaning(text: string, sub: string)
    ensures StartsWith(text, sub) <==> exists rest :: text == sub + rest
  {
    StartsWithIsPrefix(text, sub);
    if StartsWith(text, sub) {
      assert text == sub + text[|sub|..];
    }
  }

  /** The substring test finds exactly the texts that have the other one in them. */
  lemma {:induction false} ContainsMeaning(text: string, sub: string)
    ensures Contains(text, sub) <==> exists a, b :: text == a + sub + b
  {
    StartsWithIsPrefix(text, sub);
    if StartsWith(text, sub) {
      assert text == "" + sub + text[|sub|..];
    } else if text != "" {
      ContainsMeaning(text[1..], sub);
      if a: string, b: string :| text[1..] == a + sub + b {
        assert text == ([text[0]] + a) + sub + b;
      }
      if a: string, b: string :| text == a + sub + b {
        BeginsMeaning(text, sub);
        assert a == "" ==> text == sub + b;
        assert text[1..] == a[1..] + sub + b;
      }
    }
  }

  lemma {:induction false} TrimFrontBlank(text: string)
    ensures TrimFront(text) == "" <==> Blank(text)
    ensures TrimFront(text) != "" ==> !IsSpace(TrimFront(text)[0])
  {
    if text != "" && IsSpace(text[0]) {
      TrimFrontBlank(text[1..]);
      assert text == [text[0]] + text[1..];
    }
  }

  lemma {:induction false} TrimBackBlank(text: string)
    ensures TrimBack(text) == "" <==> Blank(text)
    ensures TrimBack(text) != "" ==> TrimBack(text)[0] == text[0]
  {
    if text != "" && IsSpace(text[|text| - 1]) {
      TrimBackBlank(text[..|text| - 1]);
      assert text == text[..|text| - 1] + [text[|text| - 1]];
    }
  }

  /** Trimming leaves nothing exactly when the text is blank. */
  lemma TrimBlank(text: string)
    ensures Trim(text) == "" <==> Blank(text)
  {
    TrimFrontBlank(text);
    TrimBackBlank(TrimFront(text));
  }

  /** The text is the command alone, or the command followed by white space. */
  predicate CommandMatches(text: string, command: string) {
    && text != "" && command != ""
    && (text == command
        || (StartsWith(text, command) && (|text| == |command| || (|command| < |text| && IsSpace(text[|command|])))))
  }

  lemma CommandMatchesMeaning(text: string, command: string)
    ensures CommandMatches(text, command) <==>
      command != "" && exists rest :: text == command + rest && (rest == "" || IsSpace(rest[0]))
  {
    StartsWithIsPrefix(text, command);
    if CommandMatches(text, command) {
      assert text == command + text[|command|..];
    }
    if rest: string :| text == command + rest && (rest == "" || IsSpace(rest[0])) {
      assert rest == "" ==> text == command;
      assert rest != "" ==> text[|command|] == rest[0];
    }
  }
}
