/** StringExtensions.RemoveSuffix and its case-insensitive overload. */
module StringExtensions {
  import opened Text

  /** Removes one copy of suffix from the end of value, when value ends with it (ordinal comparison). */
  function RemoveSuffix(value: string, suffix: string): (r: string)
    ensures EndsWith(value, suffix) ==> r + suffix == value
    ensures !EndsWith(value, suffix) ==> r == value
    ensures r == value[..|r|]
    ensures |r| == |value| || |r| == |value| - |suffix|
  {
    if EndsWith(value, suffix) then value[..|value| - |suffix|] else value
  }

  /** The overload taking StringComparison.OrdinalIgnoreCase. */
  function RemoveSuffixIgnoreCase(value: string, suffix: string): (r: string)
    ensures EndsWithIgnoreCase(value, suffix) ==>
      |r| + |suffix| == |value| && EqualsIgnoreCase(value[|r|..], suffix)
    ensures !EndsWithIgnoreCase(value, suffix) ==> r == value
    ensures r == value[..|r|]
  {
    if EndsWithIgnoreCase(value, suffix) then value[..|value| - |suffix|] else value
  }

  /** Removing a suffix and appending it again gives back the string. */
  lemma RemoveSuffixOfAppend(value: string, suffix: string)
    ensures RemoveSuffix(value + suffix, suffix) == value
  {
    assert (value + suffix)[|value|..] == suffix;
  }

  /** Only one occurrence is removed. */
  lemma RemoveSuffixOnce()
    ensures RemoveSuffix("a.git.git", ".git") == "a.git"
  {
    assert EndsWith("a.git.git", ".git");
  }

  /** Only one occurrence is removed, whatever its letter case. */
  lemma RemoveSuffixIgnoreCaseOnce()
    ensures RemoveSuffixIgnoreCase("a.git.GIT", ".git") == "a.git"
  {
    var value := "a.git.GIT";
    assert value[5..] == ".GIT";
    assert FoldCase(".GIT") == ".git";
    assert EndsWithIgnoreCase(value, ".git");
  }

  /** An empty suffix, a matching suffix and a non-matching suffix; case matters only to the ordinal overload. */
  lemma RemoveSuffixExamples()
    ensures RemoveSuffix("some-string", "") == "some-string"
    ensures RemoveSuffix("some-string", "-string") == "some"
    ensures RemoveSuffix("some-string", "suffix") == "some-string"
    ensures RemoveSuffixIgnoreCase("some-string", "-STRING") == "some"
    ensures RemoveSuffix("some-string", "-STRING") == "some-string"
  {
    assert EndsWith("some-string", "-string");
    assert FoldCase("some-string"[4..]) == FoldCase("-STRING");
    assert "some-string"[4..] != "-STRING";
  }
}
