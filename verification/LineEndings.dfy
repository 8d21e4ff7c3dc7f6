/** Hashing that does not see the difference between line endings. */
module LineEndings {
  datatype Digest = Sha(of: string)

  /** CRLF and CR become LF. */
  function NormalizeEol(s: string): string {
    if s == "" then ""
    else if s[0] == '\r' then "\n" + NormalizeEol(if |s| > 1 && s[1] == '\n' then s[2..] else s[1..])
    else [s[0]] + NormalizeEol(s[1..])
  }

  function NormalizedDigest(text: string): Digest {
    Sha(NormalizeEol(text))
  }

  lemma {:induction false} NoReturns(s: string)
    ensures '\r' !in NormalizeEol(s)
    decreases |s|
  {
    if s != "" {
      NoReturns(if s[0] == '\r' && |s| > 1 && s[1] == '\n' then s[2..] else s[1..]);
    }
  }

  lemma {:induction false} PlainStays(s: string)
    requires '\r' !in s
    ensures NormalizeEol(s) == s
  {
    if s != "" {
      PlainStays(s[1..]);
      assert s == [s[0]] + s[1..];
    }
  }

  /** Normalizing twice changes nothing, so a file read back hashes as it did. */
  lemma DigestIsStable(s: string)
    ensures NormalizedDigest(NormalizeEol(s)) == NormalizedDigest(s)
  {
    NoReturns(s);
    PlainStays(NormalizeEol(s));
  }
}
