/** Values as the AWS SDK for Go represents them: optional (pointer) fields, and the
    helpers that read a `*string` or a `[]*string` with nil taken as the empty string. */
module AwsValues {

  /** A Go pointer field: `None` is a nil pointer. */
  datatype Option<+T> = None | Some(value: T)

  /** `aws.StringValue`: the pointed-to string, or "" for a nil pointer. */
  function StringValue(p: Option<string>): string {
    match p
    case Some(v) => v
    case None => ""
  }

  /** `aws.StringValueSlice`: every entry read with `StringValue`, in order. */
  function StringValueSlice(s: seq<Option<string>>): (r: seq<string>)
    ensures |r| == |s|
    ensures forall i :: 0 <= i < |s| ==> r[i] == StringValue(s[i])
  {
    if s == [] then [] else [StringValue(s[0])] + StringValueSlice(s[1..])
  }

  /** A slice field that may be nil; a nil slice has length zero where it is read. */
  function NilAsEmpty(s: Option<seq<Option<string>>>): seq<Option<string>> {
    match s
    case Some(v) => v
    case None => []
  }

  /** `aws.StringValueSlice` as it runs: a fresh `[]string` filled entry by entry. */
  method CopyStringValues(s: seq<Option<string>>) returns (a: array<string>)
    ensures fresh(a)
    ensures a[..] == StringValueSlice(s)
  {
    a := new string[|s|];
    for i := 0 to |s|
      invariant forall k :: 0 <= k < i ==> a[k] == StringValue(s[k])
    {
      a[i] := StringValue(s[i]);
    }
  }
}
