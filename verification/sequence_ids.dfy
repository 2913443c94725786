/**
 * Human-readable sequential identifiers ("ORD00042", "TKT00007"): a named counter
 * collection incremented by one per request, and the prefix + zero-padded format.
 */
module SequenceIds {
  import opened Decimal

  /** Minimum number of digits after the prefix. */
  const IdDigits: nat := 5

  /** `${prefix}${n.toString().padStart(5, "0")}` */
  function SequenceId(prefix: string, n: nat): (id: string)
    ensures |id| >= |prefix| + IdDigits && id[..|prefix|] == prefix
  {
    prefix + PadStart(NatToString(n), IdDigits, '0')
  }

  /** The digits after the prefix decode back to the sequence number. */
  lemma SequenceIdDecodes(prefix: string, n: nat)
    ensures ParseDecimal(SequenceId(prefix, n)[|prefix|..]) == n
  {
    var id := SequenceId(prefix, n);
    assert id[|prefix|..] == PadStart(NatToString(n), IdDigits, '0');
    ParsePadded(n, IdDigits);
  }

  /** Distinct sequence numbers give distinct identifiers. */
  lemma SequenceIdInjective(prefix: string, m: nat, n: nat)
    requires m != n
    ensures SequenceId(prefix, m) != SequenceId(prefix, n)
  {
    SequenceIdDecodes(prefix, m);
    SequenceIdDecodes(prefix, n);
  }

  /**
   * padStart never truncates: below 100000 the identifier is prefix + exactly five digits,
   * from 100000 on it is longer.
   */
  lemma SequenceIdWidth(prefix: string, n: nat)
    ensures n < 100000 ==> |SequenceId(prefix, n)| == |prefix| + 5
    ensures n >= 100000 ==> |SequenceId(prefix, n)| > |prefix| + 5
  {
    assert Pow10(5) == 100000;
    if n > 0 {
      NatToStringLength(n, 5);
    }
  }

  /** Identifiers with different three-letter prefixes never collide. */
  lemma PrefixesSeparate(p: string, q: string, m: nat, n: nat)
    requires |p| == |q| && p != q
    ensures SequenceId(p, m) != SequenceId(q, n)
  {
    assert SequenceId(p, m)[..|p|] == p;
    assert SequenceId(q, n)[..|q|] == q;
  }

  /**
   * The `counters` collection: one document per sequence name, incremented with
   * `$inc: 1` and created by the upsert on first use.
   */
  class Counters {
    var values: map<string, nat>

    constructor ()
      ensures values == map[]
    {
      values := map[];
    }

    /** The stored value, 0 for a counter that has never been upserted. */
    function Current(name: string): nat
      reads this
    {
      if name in values then values[name] else 0
    }

    /** getNextSequenceValue: increments the named counter by exactly one and returns the new value. */
    method Next(name: string) returns (v: nat)
      modifies this
      ensures v == old(Current(name)) + 1
      ensures values == old(values)[name := v]
      ensures forall other :: other != name ==> Current(other) == old(Current(other))
    {
      v := Current(name) + 1;
      values := values[name := v];
    }
  }
}
