/** Small shared vocabulary: an Option for Java's nullable references and
    the prefix/suffix tests of java.lang.String. */
module Common {

  /** A nullable reference: `None` stands for Java's null. */
  datatype Option<T> = None | Some(value: T)

  /** String.startsWith */
  predicate StartsWith(s: string, prefix: string) {
    |prefix| <= |s| && s[..|prefix|] == prefix
  }

  /** String.endsWith */
  predicate EndsWith(s: string, suffix: string) {
    |suffix| <= |s| && s[|s| - |suffix|..] == suffix
  }

  lemma EndsWithAppended(s: string, suffix: string)
    ensures EndsWith(s + suffix, suffix)
  {
    assert (s + suffix)[|s|..] == suffix;
  }
}
