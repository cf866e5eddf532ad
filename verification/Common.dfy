/** Vocabulary shared by every component model. */
module Common {

  datatype Option<+T> = None | Some(value: T)

  type ExecutionId = nat
  type ThreadKey = nat

  /** Times are integers on the one monotone clock the deployment shares. */
  type Time = int

  datatype ExecutionStatus = NotStarted | Running | Awaiting | ExecutionCompleted | ExecutionFailed

  /** Parts joined by a separator. */
  function Join(parts: seq<string>, separator: string): string {
    if parts == [] then ""
    else if |parts| == 1 then parts[0]
    else Join(parts[..|parts| - 1], separator) + separator + parts[|parts| - 1]
  }

  /** Where the `i`-th part begins. */
  function JoinStart(parts: seq<string>, separator: string, i: nat): nat
    requires i <= |parts|
  {
    if i == 0 then 0 else JoinStart(parts, separator, i - 1) + |parts[i - 1]| + |separator|
  }

  /** Every part stands in the joined text, in order, each followed by the separator but for the last. */
  lemma {:induction false} JoinHolds(parts: seq<string>, separator: string, i: nat)
    requires i < |parts|
    ensures var at := JoinStart(parts, separator, i);
            && at + |parts[i]| <= |Join(parts, separator)|
            && Join(parts, separator)[at..at + |parts[i]|] == parts[i]
            && (i == |parts| - 1 ==> at + |parts[i]| == |Join(parts, separator)|)
    ensures var end := JoinStart(parts, separator, i) + |parts[i]|;
            i < |parts| - 1 ==>
              end + |separator| <= |Join(parts, separator)| && Join(parts, separator)[end..end + |separator|] == separator
    decreases |parts|
  {
    var n := |parts| - 1;
    if n > 0 {
      JoinStartOfPrefix(parts, separator, i);
      JoinStartOfPrefix(parts, separator, n - 1);
      JoinHolds(parts[..n], separator, if i < n then i else n - 1);
      JoinStep(Join(parts[..n], separator), separator, parts[n]);
    }
  }

  lemma JoinStep(first: string, separator: string, last: string)
    ensures var all := first + separator + last;
            && (forall i, j :: 0 <= i <= j <= |first| ==> all[i..j] == first[i..j])
            && all[|first|..|first| + |separator|] == separator
            && all[|first| + |separator|..|all|] == last
  {
  }

  lemma {:induction false} JoinStartOfPrefix(parts: seq<string>, separator: string, i: nat)
    requires i < |parts|
    ensures JoinStart(parts[..|parts| - 1], separator, i) == JoinStart(parts, separator, i)
  {
    if i > 0 { JoinStartOfPrefix(parts, separator, i - 1); }
  }

  /** What stripping removes. */
  predicate IsSpaceChar(c: char) {
    || '\t' <= c <= '\r' || 28 as char <= c <= ' ' || c == 0x85 as char || c == 0xA0 as char || c == 0x1680 as char
    || 0x2000 as char <= c <= 0x200A as char || c == 0x2028 as char || c == 0x2029 as char || c == 0x202F as char
    || c == 0x205F as char || c == 0x3000 as char
  }

  /** Stripping spares every visible ASCII character. */
  lemma VisibleIsKept(c: char)
    ensures '!' <= c <= '~' ==> !IsSpaceChar(c)
    ensures c in {' ', '\t', '\n', '\r'} ==> IsSpaceChar(c)
  {
  }

  function Min(a: int, b: int): int {
    if a <= b then a else b
  }

  function Max(a: int, b: int): int {
    if a <= b then b else a
  }
}
