/** Temporary passwords: filled class by class, then shuffled in place. */
module Password {

  const UPPERCASE := "ABCDEFGHIJKLMNOPQRSTUVWXYZ"
  const LOWERCASE := "abcdefghijklmnopqrstuvwxyz"
  const DIGITS := "0123456789"
  const SPECIAL := "!@#$%^&*"

  const MIN_LENGTH := 8
  const MAX_LENGTH := 128

  /** Some character of the password lies in a class. */
  predicate Has(password: string, chars: string) {
    exists c :: c in password && c in chars
  }

  /** The rules a password must meet. */
  predicate ValidPassword(password: string) {
    && MIN_LENGTH <= |password| <= MAX_LENGTH
    && Has(password, UPPERCASE) && Has(password, LOWERCASE) && Has(password, DIGITS) && Has(password, SPECIAL)
  }

  /** One random byte reduced to an index; a failing random source gives 0. */
  function RandomIndex(random: nat -> int, call: nat, max: nat): (i: nat)
    requires 0 < max
    ensures i < max
  {
    random(call) % max
  }

  /** A random byte that is small enough is the index, so every index can come up; and only the byte of that call
      matters. */
  lemma EveryIndexComesUp(random: nat -> int, call: nat, max: nat, i: nat)
    requires i < max && random(call) == i
    ensures RandomIndex(random, call, max) == i
  {
  }

  /** Swapping two elements of a sequence. */
  function Swapped<T>(s: seq<T>, i: nat, j: nat): seq<T>
    requires i < |s| && j < |s|
  {
    s[i := s[j]][j := s[i]]
  }

  lemma SwapKeepsContents<T>(s: seq<T>, i: nat, j: nat)
    requires i < |s| && j < |s|
    ensures multiset(Swapped(s, i, j)) == multiset(s)
  {
  }

  /** The characters after the first n exchanges: position i with a random one, for each i in turn. */
  function Shuffled<T>(s: seq<T>, random: nat -> int, n: nat): (r: seq<T>)
    requires n <= |s|
    ensures |r| == |s|
  {
    if n == 0 then s else Swapped(Shuffled(s, random, n - 1), n - 1, RandomIndex(random, n - 1, |s|))
  }

  lemma {:induction false} ShuffleKeepsContents<T>(s: seq<T>, random: nat -> int, n: nat)
    requires n <= |s|
    ensures multiset(Shuffled(s, random, n)) == multiset(s)
  {
    hide Swapped, RandomIndex;
    if n == 0 {
    } else {
      ShuffleKeepsContents(s, random, n - 1);
      SwapKeepsContents(Shuffled(s, random, n - 1), n - 1, RandomIndex(random, n - 1, |s|));
    }
  }

  /** A source that names, for position i, the position j and otherwise each position itself. */
  function Exchanging(i: nat, j: nat): nat -> int {
    (call: nat) => if call == i then j else call
  }

  /** The shuffle can exchange any two positions and leave the rest alone, so it can reach every order. */
  lemma {:induction false} EveryExchangeComesUp<T>(s: seq<T>, i: nat, j: nat, n: nat)
    requires i < |s| && j < |s| && n <= |s|
    ensures Shuffled(s, Exchanging(i, j), n) == if n <= i then s else Swapped(s, i, j)
  {
    if n == 0 {
    } else {
      EveryExchangeComesUp(s, i, j, n - 1);
      EveryIndexComesUp(Exchanging(i, j), n - 1, |s|, if n - 1 == i then j else n - 1);
    }
  }

  /** Exchanges in place; nothing is added or lost. */
  method Shuffle(b: array<char>, random: nat -> int)
    modifies b
    ensures b[..] == Shuffled(old(b[..]), random, b.Length)
    ensures multiset(b[..]) == multiset(old(b[..]))
  {
    for i := 0 to b.Length
      invariant b[..] == Shuffled(old(b[..]), random, i)
    {
      var idx := RandomIndex(random, i, b.Length);
      b[idx], b[i] := b[i], b[idx];
      assert b[..] == Swapped(Shuffled(old(b[..]), random, i), i, idx);
    }
    ShuffleKeepsContents(old(b[..]), random, b.Length);
  }

  lemma SameContentsSameClasses(a: string, b: string, chars: string)
    requires multiset(a) == multiset(b) && Has(a, chars)
    ensures Has(b, chars)
  {
    var c :| c in a && c in chars;
    assert c in multiset(a);
    assert c in b;
  }

  const ALL_CHARS := UPPERCASE + LOWERCASE + DIGITS + SPECIAL

  lemma ClassSizes()
    ensures |UPPERCASE| == 26 && |LOWERCASE| == 26 && |DIGITS| == 10 && |SPECIAL| == 8
    ensures |ALL_CHARS| == 70
    ensures forall c :: c in UPPERCASE || c in LOWERCASE || c in DIGITS || c in SPECIAL ==> c in ALL_CHARS
  {
  }

  /** One character of a class. */
  function Draw(chars: string, random: nat -> int, call: nat): (c: char)
    requires chars != ""
    ensures c in chars
  {
    chars[RandomIndex(random, call, |chars|)]
  }

  /** The classes are the ranges that the password rules name. */
  lemma ClassesAreRanges(c: char)
    ensures c in UPPERCASE <==> 'A' <= c <= 'Z'
    ensures c in LOWERCASE <==> 'a' <= c <= 'z'
    ensures c in DIGITS <==> '0' <= c <= '9'
    ensures c in SPECIAL <==> c in "!@#$%^&*"
  {
  }

  /** Every character of a class can be drawn. */
  lemma EveryCharacterDrawn(chars: string, random: nat -> int, call: nat, i: nat)
    requires i < |chars| && random(call) == i
    ensures Draw(chars, random, call) == chars[i]
  {
  }

  /** A password is valid exactly if it has 8 to 128 characters, among them an uppercase letter, a lowercase letter,
      a digit and one of the special characters. */
  lemma ValidPasswordIff(p: string)
    ensures ValidPassword(p)
            <==> && 8 <= |p| <= 128
                 && (exists c :: c in p && 'A' <= c <= 'Z') && (exists c :: c in p && 'a' <= c <= 'z')
                 && (exists c :: c in p && '0' <= c <= '9') && (exists c :: c in p && c in "!@#$%^&*")
  {
    forall c: char
      ensures c in UPPERCASE <==> 'A' <= c <= 'Z'
      ensures c in LOWERCASE <==> 'a' <= c <= 'z'
      ensures c in DIGITS <==> '0' <= c <= '9'
    {
      ClassesAreRanges(c);
    }
  }

  /** The class each of the twelve characters is drawn from. */
  function ClassAt(k: nat): (chars: string)
    ensures chars != ""
    ensures forall c <- chars :: c in ALL_CHARS
  {
    ClassSizes();
    if k == 0 then UPPERCASE else if k == 1 then LOWERCASE else if k == 2 then DIGITS else if k == 3 then SPECIAL
    else ALL_CHARS
  }

  /** Twelve characters, the first four one of each class. */
  method Fill(random: nat -> int) returns (b: array<char>)
    ensures fresh(b) && b.Length == 12
    ensures forall k: nat :: k < 12 ==> b[k] == Draw(ClassAt(k), random, k)
  {
    hide Draw, UPPERCASE, LOWERCASE, DIGITS, SPECIAL, ALL_CHARS;
    ClassSizes();
    b := new char[12](_ => ' ');
    b[0] := Draw(UPPERCASE, random, 0);
    b[1] := Draw(LOWERCASE, random, 1);
    b[2] := Draw(DIGITS, random, 2);
    b[3] := Draw(SPECIAL, random, 3);
    for i := 4 to 12
      invariant forall k: nat :: k < i ==> b[k] == Draw(ClassAt(k), random, k)
    {
      b[i] := Draw(ALL_CHARS, random, i);
    }
  }

  /** Twelve characters, each drawn from the class of its position. */
  ghost predicate IsDrawn(s: string, random: nat -> int) {
    |s| == 12 && forall k: nat :: k < 12 ==> s[k] == Draw(ClassAt(k), random, k)
  }

  lemma FilledHasClasses(s: string, random: nat -> int)
    requires IsDrawn(s, random)
    ensures Has(s, UPPERCASE) && Has(s, LOWERCASE) && Has(s, DIGITS) && Has(s, SPECIAL)
    ensures forall c <- s :: c in ALL_CHARS
  {
    hide UPPERCASE, LOWERCASE, DIGITS, SPECIAL, ALL_CHARS;
    assert s[0] in s && s[1] in s && s[2] in s && s[3] in s;
    assert s[0] in UPPERCASE && s[1] in LOWERCASE && s[2] in DIGITS && s[3] in SPECIAL;
  }

  lemma SameContentsSamePassword(drawn: string, password: string, random: nat -> int)
    requires IsDrawn(drawn, random) && multiset(drawn) == multiset(password) && |password| == 12
    ensures ValidPassword(password) && forall c <- password :: c in ALL_CHARS
  {
    hide UPPERCASE, LOWERCASE, DIGITS, SPECIAL, ALL_CHARS, Has, IsDrawn;
    FilledHasClasses(drawn, random);
    SameContentsSameClasses(drawn, password, UPPERCASE);
    SameContentsSameClasses(drawn, password, LOWERCASE);
    SameContentsSameClasses(drawn, password, DIGITS);
    SameContentsSameClasses(drawn, password, SPECIAL);
    forall c | c in password
      ensures c in ALL_CHARS
    {
      assert c in multiset(password);
      assert c in drawn;
    }
  }

  /** For every random source the generated password meets the rules and has 12 characters: those drawn,
      in shuffled order. */
  method GenerateTemporaryPassword(random: nat -> int, shuffle: nat -> int) returns (password: string)
    ensures |password| == 12 && ValidPassword(password)
    ensures exists drawn: string :: IsDrawn(drawn, random) && password == Shuffled(drawn, shuffle, 12)
    ensures forall c <- password :: c in ALL_CHARS
  {
    hide Draw, ClassAt, ValidPassword, UPPERCASE, LOWERCASE, DIGITS, SPECIAL, ALL_CHARS, Shuffled;
    var b := Fill(random);
    ghost var drawn: string := b[..];
    assert IsDrawn(drawn, random);
    Shuffle(b, shuffle);
    password := b[..];
    SameContentsSamePassword(drawn, password, random);
  }
}
