/** The one list operation both layers of the store share: dropping the
    records that carry a given id, as `filter(r => r.id !== id)` does. */
module RecordLists {
  import opened FlightTypes

  /** The records of `records` whose id differs from `id`, in their order. */
  function WithoutId(records: seq<FlightRecord>, id: string): (kept: seq<FlightRecord>)
    ensures |kept| <= |records|
    ensures forall k :: 0 <= k < |kept| ==> kept[k].id != id && kept[k] in records
  {
    if records == [] then []
    else if records[0].id == id then WithoutId(records[1..], id)
    else [records[0]] + WithoutId(records[1..], id)
  }

  /** A record survives the filter exactly when it was there and has another id. */
  lemma {:induction false} WithoutIdMembers(records: seq<FlightRecord>, id: string, r: FlightRecord)
    ensures r in WithoutId(records, id) <==> r in records && r.id != id
  {
    if records != [] {
      WithoutIdMembers(records[1..], id, r);
      assert records == [records[0]] + records[1..];
    }
  }

  /** Every position moved one place to the right. */
  function Shifted(positions: seq<nat>): (moved: seq<nat>)
    ensures |moved| == |positions|
    ensures forall k :: 0 <= k < |moved| ==> moved[k] == positions[k] + 1
  {
    if positions == [] then [] else [positions[0] + 1] + Shifted(positions[1..])
  }

  /** `kept` is read off `records` at `positions`. */
  ghost predicate ReadAt(records: seq<FlightRecord>, positions: seq<nat>, kept: seq<FlightRecord>)
  {
    && |positions| == |kept|
    && forall k :: 0 <= k < |positions| ==> positions[k] < |records| && kept[k] == records[positions[k]]
  }

  ghost predicate Increasing(positions: seq<nat>)
  {
    forall k, l :: 0 <= k < l < |positions| ==> positions[k] < positions[l]
  }

  /** Every position from `from` on whose record has another id is listed. */
  ghost predicate Covers(records: seq<FlightRecord>, id: string, positions: seq<nat>, from: nat)
  {
    forall j :: from <= j < |records| && records[j].id != id ==> j in positions
  }

  // Steps of WithoutIdPositions, each kept in its own small proof obligation.
  lemma ShiftedReadAt(records: seq<FlightRecord>, rest: seq<nat>, kept: seq<FlightRecord>)
    requires records != [] && ReadAt(records[1..], rest, kept)
    ensures ReadAt(records, Shifted(rest), kept)
  {
  }

  lemma ShiftedCovers(records: seq<FlightRecord>, id: string, rest: seq<nat>)
    requires records != [] && Covers(records[1..], id, rest, 0)
    ensures Covers(records, id, Shifted(rest), 1)
  {
  }

  lemma ShiftedIncreasing(rest: seq<nat>)
    requires Increasing(rest)
    ensures Increasing(Shifted(rest)) && Increasing([0] + Shifted(rest))
  {
  }

  lemma ConsReadAt(records: seq<FlightRecord>, shifted: seq<nat>, kept: seq<FlightRecord>)
    requires records != [] && ReadAt(records, shifted, kept)
    ensures ReadAt(records, [0] + shifted, [records[0]] + kept)
  {
  }

  /** The positions in `records` that the filter keeps, strictly increasing:
      the survivors are exactly the records with another id, in their
      original relative order. */
  lemma {:induction false} WithoutIdPositions(records: seq<FlightRecord>, id: string) returns (positions: seq<nat>)
    ensures ReadAt(records, positions, WithoutId(records, id))
    ensures Increasing(positions)
    ensures Covers(records, id, positions, 0)
  {
    if records == [] {
      positions := [];
    } else {
      var rest := WithoutIdPositions(records[1..], id);
      ShiftedReadAt(records, rest, WithoutId(records[1..], id));
      ShiftedCovers(records, id, rest);
      ShiftedIncreasing(rest);
      if records[0].id == id {
        positions := Shifted(rest);
      } else {
        positions := [0] + Shifted(rest);
        ConsReadAt(records, Shifted(rest), WithoutId(records[1..], id));
        assert WithoutId(records, id) == [records[0]] + WithoutId(records[1..], id);
      }
    }
  }

  /** Filtering by an id no record carries changes nothing. */
  lemma {:induction false} WithoutIdAbsent(records: seq<FlightRecord>, id: string)
    requires forall k :: 0 <= k < |records| ==> records[k].id != id
    ensures WithoutId(records, id) == records
  {
    if records != [] {
      WithoutIdAbsent(records[1..], id);
    }
  }

  /** Filtering twice by the same id is filtering once. */
  lemma {:induction false} WithoutIdIdempotent(records: seq<FlightRecord>, id: string)
    ensures WithoutId(WithoutId(records, id), id) == WithoutId(records, id)
  {
    WithoutIdAbsent(WithoutId(records, id), id);
  }

  /** The filter works piecewise: a concatenation is filtered part by part,
      so what comes first stays first. */
  lemma {:induction false} WithoutIdConcat(xs: seq<FlightRecord>, ys: seq<FlightRecord>, id: string)
    ensures WithoutId(xs + ys, id) == WithoutId(xs, id) + WithoutId(ys, id)
  {
    if xs != [] {
      assert (xs + ys)[1..] == xs[1..] + ys;
      WithoutIdConcat(xs[1..], ys, id);
    } else {
      assert xs + ys == ys;
    }
  }
}
