/** Grinder 3 result records, already split into columns and converted, and the
    pass/fail test the analyzer applies to the errors column. */
module Records {

  datatype Option<T> = None | Some(value: T)

  /** The test column is compared as text, never as a number. */
  type TestId = string

  /** One data line of a Grinder 3 log. Column 5 (errors) stays text because the
      analyzer decides pass/fail by comparing its stripped text with "0"; the
      other columns are the integers the analyzer obtains with int()/long(). */
  datatype Record = Record(
    testNo: TestId,
    startTime: int,
    errors: string,
    responseTime: int,
    responseLength: int,
    resolveTime: int,
    connectTime: int,
    firstByteTime: int)

  /** Every element of the sequence occurs once. */
  predicate Distinct<T(==)>(s: seq<T>)
  {
    forall i, j :: 0 <= i < j < |s| ==> s[i] != s[j]
  }

  /** The characters Python 2's str.strip() drops when called without arguments. */
  predicate IsSpace(c: char)
  {
    c == ' ' || c == '\t' || c == '\n' || c == '\r' || c == '\U{000B}' || c == '\U{000C}'
  }

  /** s without its leading whitespace. */
  function StripLeft(s: string): string
  {
    if s != [] && IsSpace(s[0]) then StripLeft(s[1..]) else s
  }

  /** s without its trailing whitespace. */
  function StripRight(s: string): string
  {
    if s != [] && IsSpace(s[|s| - 1]) then StripRight(s[..|s| - 1]) else s
  }

  /** StripLeft drops a prefix made only of whitespace and stops at the first
      other character. */
  lemma {:induction false} StripLeftDropsLeadingSpace(s: string)
    ensures |StripLeft(s)| <= |s| && StripLeft(s) == s[|s| - |StripLeft(s)|..]
    ensures forall i :: 0 <= i < |s| - |StripLeft(s)| ==> IsSpace(s[i])
    ensures StripLeft(s) == [] || !IsSpace(StripLeft(s)[0])
  {
    if s != [] && IsSpace(s[0]) {
      StripLeftDropsLeadingSpace(s[1..]);
    }
  }

  /** StripRight drops a suffix made only of whitespace and stops at the last
      other character. */
  lemma {:induction false} StripRightDropsTrailingSpace(s: string)
    ensures |StripRight(s)| <= |s| && StripRight(s) == s[..|StripRight(s)|]
    ensures forall i :: |StripRight(s)| <= i < |s| ==> IsSpace(s[i])
    ensures StripRight(s) == [] || !IsSpace(StripRight(s)[|StripRight(s)| - 1])
  {
    if s != [] && IsSpace(s[|s| - 1]) {
      StripRightDropsTrailingSpace(s[..|s| - 1]);
    }
  }

  /** Python's s.strip(). */
  function Strip(s: string): string
  {
    StripRight(StripLeft(s))
  }

  /** A record counts as passed exactly when its stripped errors column is "0". */
  predicate Passed(errors: string)
  {
    Strip(errors) == "0"
  }

  /** The errors column passes iff it holds a single '0' and otherwise only
      whitespace: " 0\n" passes, while "00", "-0", "" and "1" fail. */
  lemma PassedIff(s: string)
    ensures Passed(s) <==>
      exists k :: 0 <= k < |s| && s[k] == '0' &&
        forall j :: 0 <= j < |s| && j != k ==> IsSpace(s[j])
  {
    var left := StripLeft(s);
    var d := |s| - |left|;
    var r := StripRight(left);
    StripLeftDropsLeadingSpace(s);
    StripRightDropsTrailingSpace(left);
    if Passed(s) {
      assert r == "0" && left[0] == '0';
      assert s[d] == '0';
      forall j | 0 <= j < |s| && j != d
        ensures IsSpace(s[j])
      {
        if j > d {
          assert s[j] == left[j - d];
        }
      }
    }
    if exists k :: 0 <= k < |s| && s[k] == '0' &&
        forall j :: 0 <= j < |s| && j != k ==> IsSpace(s[j])
    {
      var k :| 0 <= k < |s| && s[k] == '0' &&
        forall j :: 0 <= j < |s| && j != k ==> IsSpace(s[j]);
      assert !IsSpace(s[k]);
      assert d <= k;
      assert left[0] == s[d];
      assert d == k;
      assert !IsSpace(left[0]);
      assert |r| >= 1;
      assert r[|r| - 1] == s[d + |r| - 1];
      assert |r| == 1;
      assert r == [left[0]];
    }
  }
}
