/**
 * Register struct layouts. A struct of registers is the list of its members in
 * declaration order, each with its declared size in bytes and the byte offset
 * that its documentation comment gives (for an unnamed reserved slot, the offset
 * it fills). The real offset of a member is the sum of the sizes before it.
 */
module Layout {

  datatype Member = Member(name: string, bytes: nat, commented: nat)

  /** Byte offset of member `k`: the declared sizes of all members before it. */
  function OffsetAt(fields: seq<Member>, k: nat): nat
    requires k <= |fields|
  {
    if k == 0 then 0 else OffsetAt(fields, k - 1) + fields[k - 1].bytes
  }

  /** Size of the whole struct in bytes. */
  function StructSize(fields: seq<Member>): nat {
    OffsetAt(fields, |fields|)
  }

  /**
   * The comments describe packed members starting at byte `start`: the first
   * member sits at `start` and every member starts where the previous one, at
   * its declared size, ends.
   */
  predicate PackedFrom(fields: seq<Member>, start: nat) {
    && (|fields| > 0 ==> fields[0].commented == start)
    && forall k | 0 <= k < |fields| - 1 :: fields[k + 1].commented == fields[k].commented + fields[k].bytes
  }

  /** The byte after the last member, as the comments place it. */
  function EndOf(fields: seq<Member>, start: nat): nat {
    if fields == [] then start else fields[|fields| - 1].commented + fields[|fields| - 1].bytes
  }

  /** Two packed runs, the second starting where the first ends, form one packed run. */
  lemma PackedConcat(a: seq<Member>, b: seq<Member>, start: nat)
    requires PackedFrom(a, start) && PackedFrom(b, EndOf(a, start))
    ensures PackedFrom(a + b, start)
    ensures EndOf(a + b, start) == EndOf(b, EndOf(a, start))
  {
    var c := a + b;
    forall k | 0 <= k < |c| - 1
      ensures c[k + 1].commented == c[k].commented + c[k].bytes
    {
      if k + 1 == |a| {
        assert c[k] == a[|a| - 1] && c[k + 1] == b[0];
      } else if k + 1 < |a| {
        assert c[k] == a[k] && c[k + 1] == a[k + 1];
      } else {
        assert c[k] == b[k - |a|] && c[k + 1] == b[k - |a| + 1];
      }
    }
  }

  /** When the comments describe a struct packed from 0, every commented offset is the real one. */
  lemma {:induction false} CommentedOffsetsHold(fields: seq<Member>, k: nat)
    requires PackedFrom(fields, 0) && k < |fields|
    ensures OffsetAt(fields, k) == fields[k].commented
  {
    if k > 0 {
      CommentedOffsetsHold(fields, k - 1);
    }
  }

  /** The struct ends right after its last member. */
  lemma StructSizeOfPacked(fields: seq<Member>)
    requires PackedFrom(fields, 0) && |fields| > 0
    ensures StructSize(fields) == EndOf(fields, 0)
  {
    CommentedOffsetsHold(fields, |fields| - 1);
  }

  /**
   * Growing member `j` by `extra` bytes moves every later member by `extra`
   * and leaves the earlier ones in place.
   */
  lemma {:induction false} GrownMemberShifts(fields: seq<Member>, grown: seq<Member>, j: nat, extra: nat, k: nat)
    requires |grown| == |fields| && j < |fields| && k <= |fields|
    requires grown[j].bytes == fields[j].bytes + extra
    requires forall i | 0 <= i < |fields| && i != j :: grown[i].bytes == fields[i].bytes
    ensures OffsetAt(grown, k) == OffsetAt(fields, k) + (if k > j then extra else 0)
  {
    if k > 0 {
      GrownMemberShifts(fields, grown, j, extra, k - 1);
    }
  }
}
