/**
 * Password hashing as `encryptPassword` uses it (actions/users.go:126-134):
 * the plaintext is passed through Go's `strings.TrimSpace` and then to bcrypt.
 * bcrypt itself is foreign code and appears here only as a pair of functions.
 */
module Passwords {

  /** Go's `unicode.IsSpace`: the characters `strings.TrimSpace` strips. */
  predicate IsSpace(c: char) {
    || c == '\t' || c == '\n' || c == '\U{0B}' || c == '\U{0C}' || c == '\r' || c == ' '
    || c == '\U{85}' || c == '\U{A0}' || c == '\U{1680}'
    || ('\U{2000}' <= c <= '\U{200A}')
    || c == '\U{2028}' || c == '\U{2029}' || c == '\U{202F}' || c == '\U{205F}' || c == '\U{3000}'
  }

  /** Drops the leading white space of `s`; what is left starts with a non-space. */
  function TrimLeft(s: string): (r: string)
    ensures |r| <= |s|
    ensures r == [] || !IsSpace(r[0])
  {
    if s != [] && IsSpace(s[0]) then TrimLeft(s[1..]) else s
  }

  /** Drops the trailing white space of `s`; what is left ends with a non-space. */
  function TrimRight(s: string): (r: string)
    ensures |r| <= |s|
    ensures r == [] || !IsSpace(r[|r| - 1])
  {
    if s != [] && IsSpace(s[|s| - 1]) then TrimRight(s[..|s| - 1]) else s
  }

  /** `TrimLeft` removes a prefix made of white space only, and nothing else. */
  lemma {:induction false} TrimLeftDropsOnlySpace(s: string)
    ensures TrimLeft(s) == s[|s| - |TrimLeft(s)|..]
    ensures forall i | 0 <= i < |s| - |TrimLeft(s)| :: IsSpace(s[i])
  {
    if s != [] && IsSpace(s[0]) {
      TrimLeftDropsOnlySpace(s[1..]);
      assert s[1..][|s| - 1 - |TrimLeft(s)|..] == s[|s| - |TrimLeft(s)|..];
    }
  }

  /** `TrimRight` removes a suffix made of white space only, and nothing else. */
  lemma {:induction false} TrimRightDropsOnlySpace(s: string)
    ensures TrimRight(s) == s[..|TrimRight(s)|]
    ensures forall i | |TrimRight(s)| <= i < |s| :: IsSpace(s[i])
  {
    if s != [] && IsSpace(s[|s| - 1]) {
      TrimRightDropsOnlySpace(s[..|s| - 1]);
      assert s[..|s| - 1][..|TrimRight(s)|] == s[..|TrimRight(s)|];
    }
  }

  /**
   * `strings.TrimSpace`. The result neither starts nor ends with white space,
   * and it is `s` itself exactly when `s` already neither starts nor ends with it.
   */
  function TrimSpace(s: string): (r: string)
    ensures |r| <= |s|
    ensures r == [] || (!IsSpace(r[0]) && !IsSpace(r[|r| - 1]))
    ensures r == s <==> (s == [] || (!IsSpace(s[0]) && !IsSpace(s[|s| - 1])))
  {
    var l := TrimLeft(s);
    TrimRightDropsOnlySpace(l);
    TrimRight(l)
  }

  /** What `TrimSpace` removes is white space on either side: the result is a contiguous slice of `s`. */
  lemma TrimSpaceIsSlice(s: string)
    ensures var lead := |s| - |TrimLeft(s)|;
      && lead + |TrimSpace(s)| <= |s|
      && TrimSpace(s) == s[lead..lead + |TrimSpace(s)|]
      && (forall i | 0 <= i < lead :: IsSpace(s[i]))
      && (forall i | lead + |TrimSpace(s)| <= i < |s| :: IsSpace(s[i]))
  {
    var l := TrimLeft(s);
    var r := TrimSpace(s);
    var lead := |s| - |l|;
    TrimLeftDropsOnlySpace(s);
    TrimRightDropsOnlySpace(l);
    assert r == TrimRight(l) && l == s[lead..];
    assert r == s[lead..lead + |r|] by {
      assert r == l[..|r|];
    }
    forall i | lead + |r| <= i < |s| ensures IsSpace(s[i]) {
      assert s[i] == l[i - lead];
    }
  }

  /** bcrypt as the model sees it: `GenerateFromPassword` and `CompareHashAndPassword == nil`. */
  datatype Hasher = Hasher(hash: string -> string, compare: (string, string) -> bool)

  /**
   * What the model assumes of bcrypt: a stored hash accepts exactly the
   * plaintext it was made from (salting and the work factor are not visible).
   */
  ghost predicate Sound(h: Hasher) {
    forall p, q :: h.compare(h.hash(p), q) <==> p == q
  }

  /** `encryptPassword`: hashes the trimmed plaintext. */
  function EncryptPassword(h: Hasher, p: string): string {
    h.hash(TrimSpace(p))
  }

  /**
   * The stored hash of `p` accepts a supplied password `q` exactly when `q`
   * is `p` with its surrounding white space removed. Login compares the
   * untrimmed supplied password, so a password provisioned with surrounding
   * white space can never be typed back in as it was provisioned.
   */
  lemma StoredHashAcceptsTrimmedPassword(h: Hasher, p: string, q: string)
    requires Sound(h)
    ensures h.compare(EncryptPassword(h, p), q) <==> q == TrimSpace(p)
    ensures TrimSpace(p) != p ==> !h.compare(EncryptPassword(h, p), p)
  {
  }

  /** Trimming is idempotent: trimming a trimmed password changes nothing. */
  lemma TrimSpaceIdempotent(s: string)
    ensures TrimSpace(TrimSpace(s)) == TrimSpace(s)
  {
  }
}
