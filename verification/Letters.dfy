/** What the punctuation stage compares of two texts: their letters and digits, whatever their case. */
module Letters {
  /** The character classes and the case map, of which only Sound is known. */
  datatype Alphabet = Alphabet(isLetter: char -> bool, isDigit: char -> bool, isSpace: char -> bool, toLower: char -> char) {
    predicate Solid(c: char) { isLetter(c) || isDigit(c) }

    predicate Mark(c: char) { !Solid(c) && !isSpace(c) }

    predicate Same(a: char, b: char) { toLower(a) == toLower(b) }

    /** Changing case keeps a letter a letter or digit, and neither is a space. */
    ghost predicate Sound() {
      && (forall a, b :: Same(a, b) && Solid(a) ==> Solid(b))
      && (forall c :: Solid(c) ==> !isSpace(c))
    }
  }

  /** The letters and digits, in order, case aside. */
  function Core(a: Alphabet, s: string): string {
    if s == "" then "" else (if a.Solid(s[0]) then [a.toLower(s[0])] else "") + Core(a, s[1..])
  }

  /** Everything but the spaces. */
  function Dense(a: Alphabet, s: string): string {
    if s == "" then "" else (if a.isSpace(s[0]) then "" else [s[0]]) + Dense(a, s[1..])
  }

  /** t is s with marks and spaces put in or taken out anywhere, and letters and digits in another case. */
  predicate Respelled(a: Alphabet, s: string, t: string)
    decreases |s| + |t|
  {
    || (s == "" && t == "")
    || (t != "" && !a.Solid(t[0]) && Respelled(a, s, t[1..]))
    || (s != "" && !a.Solid(s[0]) && Respelled(a, s[1..], t))
    || (s != "" && t != "" && a.Solid(s[0]) && a.Same(s[0], t[0]) && Respelled(a, s[1..], t[1..]))
  }

  /** That is all that the comparison of letters lets pass. */
  lemma {:induction false} RespelledHasTheLetters(a: Alphabet, s: string, t: string)
    requires a.Sound()
    ensures Respelled(a, s, t) <==> Core(a, s) == Core(a, t)
    decreases |s| + |t|
  {
    if t != "" { RespelledHasTheLetters(a, s, t[1..]); }
    if s != "" { RespelledHasTheLetters(a, s[1..], t); }
    if s != "" && t != "" { RespelledHasTheLetters(a, s[1..], t[1..]); }
    if s != "" && t != "" && a.Solid(s[0]) && a.Solid(t[0]) {
      assert Core(a, s)[0] == a.toLower(s[0]) && Core(a, s)[1..] == Core(a, s[1..]);
      assert Core(a, t)[0] == a.toLower(t[0]) && Core(a, t)[1..] == Core(a, t[1..]);
    }
  }

  lemma {:induction false} CoreAppend(a: Alphabet, s: string, t: string)
    ensures Core(a, s + t) == Core(a, s) + Core(a, t)
  {
    if s == "" {
      assert s + t == t;
    } else {
      assert (s + t)[1..] == s[1..] + t;
      CoreAppend(a, s[1..], t);
    }
  }

  lemma {:induction false} DenseAppend(a: Alphabet, s: string, t: string)
    ensures Dense(a, s + t) == Dense(a, s) + Dense(a, t)
  {
    if s == "" {
      assert s + t == t;
    } else {
      assert (s + t)[1..] == s[1..] + t;
      DenseAppend(a, s[1..], t);
    }
  }

  /** One more character of a stretch. */
  lemma OneMore(a: Alphabet, src: string, from: nat, pos: nat)
    requires from <= pos < |src|
    ensures Core(a, src[from..pos + 1]) == Core(a, src[from..pos]) + (if a.Solid(src[pos]) then [a.toLower(src[pos])] else "")
    ensures Dense(a, src[from..pos + 1]) == Dense(a, src[from..pos]) + (if a.isSpace(src[pos]) then "" else [src[pos]])
    ensures Core(a, src[pos..]) == (if a.Solid(src[pos]) then [a.toLower(src[pos])] else "") + Core(a, src[pos + 1..])
  {
    assert src[from..pos + 1] == src[from..pos] + [src[pos]];
    CoreAppend(a, src[from..pos], [src[pos]]);
    DenseAppend(a, src[from..pos], [src[pos]]);
    assert [src[pos]][1..] == "" && src[pos..][1..] == src[pos + 1..];
  }

  lemma Stretch(a: Alphabet, src: string, from: nat, mid: nat, to: nat)
    requires from <= mid <= to <= |src|
    ensures Core(a, src[from..to]) == Core(a, src[from..mid]) + Core(a, src[mid..to])
    ensures Dense(a, src[from..to]) == Dense(a, src[from..mid]) + Dense(a, src[mid..to])
  {
    assert src[from..to] == src[from..mid] + src[mid..to];
    CoreAppend(a, src[from..mid], src[mid..to]);
    DenseAppend(a, src[from..mid], src[mid..to]);
  }

  lemma PrefixAfter(x: string, y: string, z: string)
    ensures x + y <= x + z <==> y <= z
  {
    if x + y <= x + z {
      forall i | 0 <= i < |y| ensures y[i] == z[i] { assert (x + y)[|x| + i] == (x + z)[|x| + i]; }
    }
  }
}
