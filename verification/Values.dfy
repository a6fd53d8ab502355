/** Values of unknown type, as they arrive in JSON payloads, and the outcome of checking them. */
module Values {

  datatype Option<+T> = None | Some(value: T)

  /** `Nil` is JSON null or a missing key that `dict.get` turns into None; `Compound` stands for
      any list or object. */
  datatype Value = Nil | Bool(b: bool) | Int(i: int) | Real(r: real) | Str(s: string) | Compound(json: string)

  /** An optional object or list in a payload, which may also be of the wrong type. */
  datatype Field<+T> = Missing | Malformed | Given(value: T)

  /** What a check objects to. The original's messages also name the field. */
  datatype Reason =
    | NotAnInteger | NotNumeric | NotText | ExpectedList | ExpectedObject
    | OutOfRange | UnknownKind | BadUrl | Backwards | TooEarly
    | Absent | Empty | NotAllowed | Duplicate | Contradicts | DigestMismatch

  datatype Checked<+T> = Accepted(value: T) | Refused(reason: Reason) {
    predicate IsFailure() {
      Refused?
    }

    function PropagateFailure<U>(): Checked<U>
      requires Refused?
    {
      Refused(reason)
    }

    function Extract(): T
      requires Accepted?
    {
      value
    }
  }

  /** Check every item of a list; one refusal refuses the list. */
  function CheckAll<A, B>(items: seq<A>, check: A -> Checked<B>): Checked<seq<B>> {
    if items == [] then Accepted([])
    else
      var front :- CheckAll(items[..|items| - 1], check);
      var last :- check(items[|items| - 1]);
      Accepted(front + [last])
  }

  lemma {:induction false} CheckAllMeans<A, B>(items: seq<A>, check: A -> Checked<B>)
    ensures CheckAll(items, check).Accepted? <==> forall i | 0 <= i < |items| :: check(items[i]).Accepted?
    ensures CheckAll(items, check).Accepted? ==>
              |CheckAll(items, check).value| == |items| && forall i | 0 <= i < |items| ::
                  check(items[i]) == Accepted(CheckAll(items, check).value[i])
  {
    if items != [] {
      var n := |items| - 1;
      CheckAllMeans(items[..n], check);
      assert forall i | 0 <= i < n :: items[..n][i] == items[i];
    }
  }

  /** `[f(x) for x in s]` */
  function Mapped<A, B>(f: A -> B, s: seq<A>): (r: seq<B>)
    ensures |r| == |s| && forall i | 0 <= i < |s| :: r[i] == f(s[i])
  {
    seq(|s|, i requires 0 <= i < |s| => f(s[i]))
  }

  lemma MappedMore<A, B>(f: A -> B, s: seq<A>, x: A)
    ensures Mapped(f, s + [x]) == Mapped(f, s) + [f(x)]
  {
  }
}
