/**
 * util/generator.py: random alphanumeric strings. random.choices is given as
 * `choice`, the alphabet position of the j-th character drawn.
 */
module Generator {
  import opened Values

  /** `count` consecutive characters starting at `first`. */
  function CharRange(first: char, count: nat): (s: string)
    requires first as int + count <= 0xD800
    ensures |s| == count
    ensures forall i :: 0 <= i < count ==> s[i] as int == first as int + i
  {
    seq(count, i requires 0 <= i < count => (first as int + i) as char)
  }

  /** string.ascii_lowercase + string.ascii_uppercase + string.digits. */
  const Alphabet: string := CharRange('a', 26) + CharRange('A', 26) + CharRange('0', 10)

  /** The default of the `length` parameter. */
  const DefaultLength: int := 6

  predicate IsAlnum(c: char) {
    ('a' <= c <= 'z') || ('A' <= c <= 'Z') || ('0' <= c <= '9')
  }

  /**
   * The alphabet has 62 distinct characters: the 26 lowercase letters in
   * order, then the 26 uppercase letters, then the ten digits.
   */
  lemma AlphabetLayout()
    ensures |Alphabet| == 62
    ensures forall i :: 0 <= i < 26 ==> Alphabet[i] as int == 'a' as int + i
    ensures forall i :: 26 <= i < 52 ==> Alphabet[i] as int == 'A' as int + (i - 26)
    ensures forall i :: 52 <= i < 62 ==> Alphabet[i] as int == '0' as int + (i - 52)
    ensures forall i, j :: 0 <= i < j < 62 ==> Alphabet[i] != Alphabet[j]
    ensures forall c :: IsAlnum(c) <==> c in Alphabet
  {
    var lower, upper, digits := CharRange('a', 26), CharRange('A', 26), CharRange('0', 10);
    assert Alphabet == lower + upper + digits;
    forall i | 0 <= i < 62
      ensures IsAlnum(Alphabet[i])
    {
      if i < 26 {
        assert Alphabet[i] == lower[i];
      } else if i < 52 {
        assert Alphabet[i] == upper[i - 26];
      } else {
        assert Alphabet[i] == digits[i - 52];
      }
    }
    forall c | IsAlnum(c)
      ensures c in Alphabet
    {
      if 'a' <= c <= 'z' {
        assert Alphabet[c as int - 'a' as int] == c;
      } else if 'A' <= c <= 'Z' {
        assert Alphabet[26 + (c as int - 'A' as int)] == c;
      } else {
        assert Alphabet[52 + (c as int - '0' as int)] == c;
      }
    }
  }

  /**
   * generate_random_str(length): `length` characters drawn from the
   * alphabet; a negative length draws nothing.
   */
  function GenerateRandomStr(length: int, choice: nat -> nat): (s: string)
    requires forall j: nat :: choice(j) < |Alphabet|
    ensures |s| == Max0(length)
    ensures forall i :: 0 <= i < |s| ==> IsAlnum(s[i])
  {
    AlphabetLayout();
    seq(Max0(length), j requires 0 <= j => Alphabet[choice(j)])
  }

  /** generate_random_str() with the default length. */
  function GenerateDefaultStr(choice: nat -> nat): (s: string)
    requires forall j: nat :: choice(j) < |Alphabet|
    ensures |s| == 6
  {
    GenerateRandomStr(DefaultLength, choice)
  }
}
