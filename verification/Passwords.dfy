/** GeneratePasswd of k8s/helpers.go, over an arbitrary stream of random numbers. */
module Passwords {

  const CHARS := "abcdefghijklmnopqrstuvwxyz" + "%()$#" + "ABCDEFGHIJKLMNOPQRSTUVWXYZ" + "0123456789"

  lemma SmallLetters(c: char)
    ensures c in "abcdefghijklmnopqrstuvwxyz" <==> 'a' <= c <= 'z'
  {
  }

  lemma CapitalLetters(c: char)
    ensures c in "ABCDEFGHIJKLMNOPQRSTUVWXYZ" <==> 'A' <= c <= 'Z'
  {
  }

  lemma Digits(c: char)
    ensures c in "0123456789" <==> '0' <= c <= '9'
  {
  }

  lemma InParts(a: string, b: string, c: string, d: string, x: char)
    ensures x in a + b + c + d <==> x in a || x in b || x in c || x in d
  {
  }

  /** The alphabet: letters, digits and five signs, none of them twice. */
  lemma Alphabet(c: char)
    ensures c in CHARS <==> 'a' <= c <= 'z' || 'A' <= c <= 'Z' || '0' <= c <= '9' || c in "%()$#"
    ensures |CHARS| == 67
  {
    InParts("abcdefghijklmnopqrstuvwxyz", "%()$#", "ABCDEFGHIJKLMNOPQRSTUVWXYZ", "0123456789", c);
    SmallLetters(c);
    CapitalLetters(c);
    Digits(c);
  }

  /** The password that n numbers of the stream give, from position `from` on. */
  function Password(stream: nat -> nat, from: nat, n: nat): string
  {
    seq(n, (k: nat) => CHARS[stream(from + k) % |CHARS|])
  }

  method GeneratePasswd(stringLength: nat, stream: nat -> nat, from: nat) returns (passwd: string)
    ensures passwd == Password(stream, from, stringLength)
    ensures |passwd| == stringLength && forall k | 0 <= k < stringLength :: passwd[k] == CHARS[stream(from + k) % |CHARS|]
    ensures forall c | c in passwd :: c in CHARS
  {
    var buf := new char[stringLength];
    for i := 0 to stringLength
      invariant forall k | 0 <= k < i :: buf[k] == CHARS[stream(from + k) % |CHARS|]
    {
      buf[i] := CHARS[stream(from + i) % |CHARS|];
    }
    passwd := buf[..];
  }

  function IndexOf(c: char, s: string): (i: nat)
    ensures c in s ==> i < |s| && s[i] == c
  {
    if s == "" || s[0] == c then 0 else 1 + IndexOf(c, s[1..])
  }

  function NumberFor(s: string, alphabet: string, from: nat, k: nat): nat
  {
    if from <= k < from + |s| then IndexOf(s[k - from], alphabet) else 0
  }

  function NumbersFor(s: string, alphabet: string, from: nat): nat -> nat
  {
    k => NumberFor(s, alphabet, from, k)
  }

  lemma SmallRest(i: nat, n: nat)
    requires i < n
    ensures i % n == i
  {
  }

  lemma NumberGives(s: string, alphabet: string, from: nat, k: nat)
    requires k < |s| && s[k] in alphabet
    ensures alphabet[NumbersFor(s, alphabet, from)(from + k) % |alphabet|] == s[k]
  {
    hide IndexOf;
    var i := IndexOf(s[k], alphabet);
    assert NumbersFor(s, alphabet, from)(from + k) == i by {
      assert from + k - from == k;
    }
    SmallRest(i, |alphabet|);
  }

  /** No string over the alphabet is out of reach, so nothing weaker than an arbitrary string may be assumed
      about a password. */
  lemma AnyPassword(s: string, from: nat)
    requires forall c | c in s :: c in CHARS
    ensures Password(NumbersFor(s, CHARS, from), from, |s|) == s
  {
    hide NumbersFor;
    forall k: nat | k < |s|
      ensures CHARS[NumbersFor(s, CHARS, from)(from + k) % |CHARS|] == s[k]
    {
      NumberGives(s, CHARS, from, k);
    }
  }
}
