/** What a lexing is: the properties of `Lexer.LexedFrom`, which `Tokenize`
    establishes, including that it determines the lexer's output completely. */
module LexerProperties {
  import opened Tokens
  import opened Lexer

  lemma {:induction false} FlattenCons(x: Slot, rest: seq<Slot>)
    ensures Flatten([x] + rest) == SourceOf(x) + Flatten(rest)
    decreases |rest|
  {
    if rest != [] {
      var init := rest[..|rest| - 1];
      var last := rest[|rest| - 1];
      assert [x] + rest == ([x] + init) + [last];
      assert ([x] + rest)[..|rest|] == [x] + init;
      FlattenCons(x, init);
      assert rest[..|rest| - 1] == init;
    }
  }

  /** Every character a well-formed token stands for is of the token's kind,
      and there are `count` of them. */
  lemma ExpansionOfKind(t: Token)
    requires WellFormed(t)
    ensures |Expansion(t)| == t.count
    ensures forall j :: 0 <= j < |Expansion(t)| ==> OfKind(Expansion(t)[j], t.kind)
  {
  }

  /** Every slot stands for at least one character: a hole for '0', a token
      for characters that are never '0'. */
  lemma SourceShape(s: Slot)
    requires s.Tok? ==> WellFormed(s.token)
    ensures |SourceOf(s)| >= 1
    ensures s.Hole? <==> SourceOf(s)[0] == '0'
  {
    if s.Tok? {
      ExpansionOfKind(s.token);
    }
  }

  /** The number of leading characters of `text` that the lexer files under `k`. */
  function RunLength(text: string, k: Kind): (n: nat)
    ensures n <= |text|
  {
    if text == [] || !OfKind(text[0], k) then 0 else 1 + RunLength(text[1..], k)
  }

  lemma {:induction false} RunLengthOfPrefix(p: string, q: string, k: Kind)
    requires forall j :: 0 <= j < |p| ==> OfKind(p[j], k)
    requires q == [] || !OfKind(q[0], k)
    ensures RunLength(p + q, k) == |p|
    decreases |p|
  {
    if p == [] {
      assert p + q == q;
    } else {
      assert (p + q)[1..] == p[1..] + q;
      RunLengthOfPrefix(p[1..], q, k);
    }
  }

  /** The first token of a lexing of a runnable kind covers the whole maximal
      run of its kind at the start of the text. */
  lemma FirstRunIsMaximal(text: string, x: Slot, rest: seq<Slot>)
    requires LexedFrom(text, [x] + rest)
    requires x.Tok? && IsRunnable(x.token.kind)
    ensures SourceOf(x) == text[..RunLength(text, x.token.kind)]
  {
    var all := [x] + rest;
    assert all[0] == x;
    var k := x.token.kind;
    FlattenCons(x, rest);
    ExpansionOfKind(x.token);
    var q := Flatten(rest);
    if rest != [] {
      assert all[1] == rest[0];
      assert !SameRun(all[0], all[1]);
      FlattenCons(rest[0], rest[1..]);
      assert [rest[0]] + rest[1..] == rest;
      SourceShape(rest[0]);
      if rest[0].Tok? {
        ExpansionOfKind(rest[0].token);
      }
      assert !OfKind(q[0], k);
    } else {
      assert q == [];
    }
    RunLengthOfPrefix(SourceOf(x), q, k);
  }

  /** A lexing's tail is a lexing of what its head leaves of the text. */
  lemma LexedTail(text: string, x: Slot, rest: seq<Slot>)
    requires LexedFrom(text, [x] + rest)
    ensures |SourceOf(x)| <= |text| && LexedFrom(text[|SourceOf(x)|..], rest)
  {
    FlattenCons(x, rest);
    var all := [x] + rest;
    forall j | 0 <= j < |rest| ensures rest[j].Tok? ==> WellFormed(rest[j].token) {
      assert rest[j] == all[j + 1];
    }
    forall j | 0 < j < |rest| ensures !SameRun(rest[j - 1], rest[j]) {
      assert rest[j - 1] == all[j] && rest[j] == all[j + 1];
    }
  }

  /** Two lexings of one text agree on their first slot. */
  lemma FirstSlotDetermined(text: string, x: Slot, a: seq<Slot>, y: Slot, b: seq<Slot>)
    requires LexedFrom(text, [x] + a) && LexedFrom(text, [y] + b)
    ensures x == y
  {
    assert ([x] + a)[0] == x && ([y] + b)[0] == y;
    FlattenCons(x, a);
    FlattenCons(y, b);
    SourceShape(x);
    SourceShape(y);
    if x.Tok? && y.Tok? {
      var t, u := x.token, y.token;
      ExpansionOfKind(t);
      ExpansionOfKind(u);
      assert Expansion(t)[0] == text[0] == Expansion(u)[0];
      assert t.kind == Classify(text[0]) == u.kind;
      if IsRunnable(t.kind) {
        FirstRunIsMaximal(text, x, a);
        FirstRunIsMaximal(text, y, b);
        if IsSingleCharRun(t.kind) {
          assert Expansion(t)[0] == t.value[0];
          assert Expansion(u)[0] == u.value[0];
          assert t.value == [t.value[0]] && u.value == [u.value[0]];
        }
      } else {
        assert t.value == [t.value[0]] && u.value == [u.value[0]];
      }
    } else {
      assert SourceOf(x)[0] == text[0] == SourceOf(y)[0];
    }
  }

  /** The lexing of a text is unique: `LexedFrom` pins down `Tokenize`'s output. */
  lemma {:induction false} LexingIsUnique(text: string, a: seq<Slot>, b: seq<Slot>)
    requires LexedFrom(text, a) && LexedFrom(text, b)
    ensures a == b
    decreases |a|
  {
    if a == [] || b == [] {
      SlotCountBound(text, a);
      SlotCountBound(text, b);
    } else {
      assert [a[0]] + a[1..] == a && [b[0]] + b[1..] == b;
      FirstSlotDetermined(text, a[0], a[1..], b[0], b[1..]);
      LexedTail(text, a[0], a[1..]);
      LexedTail(text, b[0], b[1..]);
      LexingIsUnique(text[|SourceOf(a[0])|..], a[1..], b[1..]);
    }
  }

  /** A lexing has at most one slot per character, and none for the empty text. */
  lemma {:induction false} SlotCountBound(text: string, slots: seq<Slot>)
    requires LexedFrom(text, slots)
    ensures |slots| <= |text|
    ensures slots == [] <==> text == []
    decreases |slots|
  {
    if slots != [] {
      assert [slots[0]] + slots[1..] == slots;
      LexedTail(text, slots[0], slots[1..]);
      SourceShape(slots[0]);
      SlotCountBound(text[|SourceOf(slots[0])|..], slots[1..]);
    }
  }

  /** The input has a '0' exactly when the lexing has a hole. */
  lemma {:induction false} HoleIffZero(text: string, slots: seq<Slot>)
    requires LexedFrom(text, slots)
    ensures Hole in slots <==> '0' in text
    decreases |slots|
  {
    if slots != [] {
      var x, rest := slots[0], slots[1..];
      assert [x] + rest == slots;
      LexedTail(text, x, rest);
      FlattenCons(x, rest);
      SourceShape(x);
      HoleIffZero(text[|SourceOf(x)|..], rest);
      assert text == SourceOf(x) + text[|SourceOf(x)|..];
      if x.Tok? {
        ExpansionOfKind(x.token);
        assert '0' !in SourceOf(x);
      } else {
        assert SourceOf(x) == "0";
      }
    }
  }

  /** Line ends, punctuation and the degree sign are one-character tokens of count 1;
      a single-character run is one character and its run length; digit and text
      runs spell their run out in full. */
  lemma TokenShapes(text: string, slots: seq<Slot>, j: nat)
    requires LexedFrom(text, slots) && j < |slots| && slots[j].Tok?
    ensures var t := slots[j].token;
            && (!IsRunnable(t.kind) ==> t.count == 1 && |t.value| == 1 && Classify(t.value[0]) == t.kind)
            && (t.kind == Ln ==> t.value == "\n" || t.value == "\r")
            && (IsSingleCharRun(t.kind) ==> |t.value| == 1 && Expansion(t) == Repeat(t.value, t.count))
            && (IsAccumulating(t.kind) ==> |t.value| == t.count && Expansion(t) == t.value)
            && '0' !in t.value
  {
    var t := slots[j].token;
    if t.kind == Ln {
      assert t.value == [t.value[0]];
    }
  }
}
