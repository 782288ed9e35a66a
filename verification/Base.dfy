/** Vocabulary shared by every other module: optional values, instants and durations as
    Go's `time` package has them, and the names LiteBoxd gives to cluster objects. */
module Base {

  datatype Option<+T> = None | Some(value: T)

  /** Instants are nanoseconds since the epoch. They are unbounded; only durations are int64. */
  type Time = int

  const SECOND: int := 1_000_000_000
  const MINUTE: int := 60 * SECOND

  const TWO_63: int := 0x8000_0000_0000_0000
  const TWO_64: int := 0x1_0000_0000_0000_0000

  /** Two's complement wrap-around of int64 arithmetic. */
  function Wrap64(x: int): (r: int)
    ensures -TWO_63 <= r < TWO_63
    ensures -TWO_63 <= x < TWO_63 ==> r == x
  {
    (x + TWO_63) % TWO_64 - TWO_63
  }

  /** Wrapping loses nothing but multiples of 2 to the 64. */
  lemma WrapIsCongruent(x: int)
    ensures (x - Wrap64(x)) % TWO_64 == 0
  {
  }

  /** `Time.Sub` saturates at the ends of the int64 range. */
  function Sub(a: Time, b: Time): (d: int)
    ensures -TWO_63 <= d < TWO_63
    ensures -TWO_63 <= a - b < TWO_63 ==> d == a - b
    ensures a - b >= TWO_63 ==> d == TWO_63 - 1
    ensures a - b < -TWO_63 ==> d == -TWO_63
  {
    if a - b >= TWO_63 then TWO_63 - 1
    else if a - b < -TWO_63 then -TWO_63
    else a - b
  }

  /** Whether a call to the database or the API server fails; a reliable one never does. */
  method Fault(reliable: bool) returns (fault: bool)
    ensures reliable ==> !fault
  {
    fault := *;
    fault := fault && !reliable;
  }
}

/** Object names derived from a sandbox id. */
module Names {

  /** Ids are the first eight characters of a UUID. */
  type Id = s: string | |s| == 8 witness "00000000"

  /** Name of the Deployment of a persistent sandbox, and of the pod of an ordinary one. */
  function RuntimeName(id: string): string {
    "sandbox-" + id
  }

  function ClaimName(id: string): string {
    "sandbox-data-" + id
  }

  lemma RuntimeNameInjective(a: string, b: string)
    ensures RuntimeName(a) == RuntimeName(b) ==> a == b
  {
    assert RuntimeName(a)[8..] == a && RuntimeName(b)[8..] == b;
  }

  lemma ClaimNameInjective(a: string, b: string)
    ensures ClaimName(a) == ClaimName(b) ==> a == b
  {
    assert ClaimName(a)[13..] == a && ClaimName(b)[13..] == b;
  }

  /** The Deployment controller names a pod after its Deployment plus a generated suffix. */
  predicate IsPodNameOf(name: string, id: string) {
    name == RuntimeName(id) || RuntimeName(id) + "-" <= name
  }

  lemma PodNameDeterminesOwner(a: Id, b: Id)
    ensures IsPodNameOf(RuntimeName(a), b) ==> a == b
  {
    RuntimeNameInjective(a, b);
    assert |RuntimeName(a)| == |RuntimeName(b)| == 16;
  }

  /** No pod name belongs to two sandboxes. */
  lemma PodNameHasOneOwner(name: string, a: Id, b: Id)
    requires IsPodNameOf(name, a) && IsPodNameOf(name, b)
    ensures a == b
  {
    assert name[..16] == RuntimeName(a) && name[..16] == RuntimeName(b);
    RuntimeNameInjective(a, b);
  }
}
