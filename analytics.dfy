/**
 * The analytics screen of a topic: how the representative is introduced, whether
 * they voted with their district's majority, and the pie chart of the vote counts.
 * A table of votes is the list of its `(key, count)` entries in iteration order;
 * a key ends in '_' followed by the vote type ('0' nay, '1' yea, '2' not voting).
 */
module Analytics {
  import opened Wrappers
  import opened JsStrings
  import opened JsValues
  import opened Platform

  /** Representatives have a numeric district; everyone else is a senator. */
  function PersonPrefix(district: Value): (r: string)
    ensures r == "Rep." <==> district.Num? || district.NaN?
    ensures r == "Sen." <==> !(district.Num? || district.NaN?)
  {
    if TypeOf(district) == "number" then "Rep." else "Sen."
  }

  /** One entry of `total_district_votes`: a key and its (integral) vote count. */
  datatype Tally = Tally(key: string, count: int)

  /**
   * The `reduce` over the keys from position `i` on, with `best` the position the
   * accumulator holds: the current key is kept only when its count is strictly larger.
   */
  function MajorityFrom(tallies: seq<Tally>, best: nat, i: nat): (m: nat)
    requires best < i <= |tallies|
    ensures m < |tallies|
    decreases |tallies| - i
  {
    if i == |tallies| then best
    else MajorityFrom(tallies, if tallies[best].count > tallies[i].count then best else i, i + 1)
  }

  /**
   * The key with the most votes, found by reducing over the keys in order and
   * keeping the earlier key only when its count is strictly larger; with no initial
   * value, reducing an empty table throws.
   */
  function Majority(tallies: seq<Tally>): (r: Completion<string>)
    ensures r.Abrupt? <==> tallies == []
  {
    if tallies == [] then Abrupt(TypeError) else Normal(tallies[MajorityFrom(tallies, 0, 1)].key)
  }

  /**
   * Whether the last '_'-piece of the majority key is `info.vote.toString()`
   * (which throws for `undefined` and `null`, as the reduce does for an empty table).
   */
  function VotedWithDistrict(tallies: seq<Tally>, vote: Value): (r: Completion<bool>)
    ensures r.Abrupt? <==> tallies == [] || vote.Undefined? || vote.Null?
  {
    match Majority(tallies)
    case Abrupt(e) => Abrupt(e)
    case Normal(key) =>
      if vote.Undefined? || vote.Null? then Abrupt(TypeError)
      else Normal(LastSegment(key, '_') == ToStr(vote))
  }

  /**
   * The state, then '-' and the district unless the district is `null`, then the
   * party in parentheses.
   */
  function LocationLabel(state: Value, district: Value, party: Value): (r: string)
    ensures StartsWith(r, ToStr(state))
    ensures EndsWith(r, " (" + ToStr(party) + ")")
    ensures |r| == |ToStr(state)| + |ToStr(party)| + 3 + (if district == Null then 0 else 1 + |ToStr(district)|)
  {
    var head, middle, tail := ToStr(state), (if district == Null then "" else "-" + ToStr(district)), " (" + ToStr(party) + ")";
    assert (head + middle + tail)[..|head|] == head;
    assert (head + middle + tail)[|head + middle|..] == tail;
    head + middle + tail
  }

  datatype LegendColor = Red | Approve | Darker | Dark

  datatype Slice = Slice(name: string, votes: Value, color: LegendColor)

  /** The legend name and colour of a vote type. */
  function VoteLabel(voteType: string): (r: (string, LegendColor))
    ensures r.0 == "Nay" <==> voteType == "0"
    ensures r.0 == "Yea" <==> voteType == "1"
    ensures r.0 == "Not Voting" <==> voteType == "2"
    ensures r.0 == "Present" <==> voteType !in {"0", "1", "2"}
  {
    if voteType == "0" then ("Nay", Red)
    else if voteType == "1" then ("Yea", Approve)
    else if voteType == "2" then ("Not Voting", Darker)
    else ("Present", Dark)
  }

  /** The chart entry of one `[key, vote_count]`, labelled by the last '_'-piece of the key. */
  function SliceOf(e: Entry): Slice {
    var (name, color) := VoteLabel(LastSegment(e.key, '_'));
    Slice(name, e.value, color)
  }

  /** The loop building the pie chart's `data`: one entry per vote key, in order. */
  method PieChartData(votes: seq<Entry>) returns (data: seq<Slice>)
    ensures |data| == |votes|
    ensures forall i :: 0 <= i < |votes| ==> data[i] == SliceOf(votes[i])
  {
    data := [];
    var i := 0;
    while i < |votes|
      invariant 0 <= i <= |votes|
      invariant |data| == i
      invariant forall j :: 0 <= j < i ==> data[j] == SliceOf(votes[j])
    {
      data := data + [SliceOf(votes[i])];
      i := i + 1;
    }
  }

  /** The chart title: the district's when there is a first key and it mentions 'district'. */
  function ChartTitle(keys: seq<string>): (r: string)
    ensures r == "Your District's Total Votes" <==> keys != [] && exists i :: OccursAt(keys[0], "district", i)
    ensures r != "Your District's Total Votes" ==> r == "Our Nation's Total Votes"
  {
    if |keys| != 0 && Includes(keys[0], "district") then "Your District's Total Votes"
    else "Our Nation's Total Votes"
  }

  // ---------------------------------------------------------------- properties

  lemma {:induction false} MajorityFromMax(tallies: seq<Tally>, best: nat, i: nat)
    requires best < i <= |tallies|
    requires forall j :: 0 <= j < i ==> tallies[j].count <= tallies[best].count
    requires forall j :: best < j < i ==> tallies[j].count < tallies[best].count
    ensures var m := MajorityFrom(tallies, best, i);
      (forall j :: 0 <= j < |tallies| ==> tallies[j].count <= tallies[m].count)
      && (forall j :: m < j < |tallies| ==> tallies[j].count < tallies[m].count)
    decreases |tallies| - i
  {
    if i < |tallies| {
      var next := if tallies[best].count > tallies[i].count then best else i;
      MajorityFromMax(tallies, next, i + 1);
    }
  }

  /**
   * The majority key has a maximal count, and no later key has as many: ties go to
   * the later key.
   */
  lemma MajorityIsLastMaximum(tallies: seq<Tally>)
    requires tallies != []
    ensures exists m: nat :: IsLastMaximum(tallies, m) && Majority(tallies) == Normal(tallies[m].key)
  {
    MajorityFromMax(tallies, 0, 1);
    var m := MajorityFrom(tallies, 0, 1);
    assert IsLastMaximum(tallies, m);
  }

  /** Position `m` holds a maximal count and every later count is smaller. */
  predicate IsLastMaximum(tallies: seq<Tally>, m: nat) {
    m < |tallies|
    && (forall j :: 0 <= j < |tallies| ==> tallies[j].count <= tallies[m].count)
    && (forall j :: m < j < |tallies| ==> tallies[j].count < tallies[m].count)
  }

  /**
   * With a majority key ending in "_" and a vote type, the representative voted with
   * the district exactly when their (integral) vote is that type.
   */
  lemma VotedWithDistrictByType(tallies: seq<Tally>, prefix: string, voteType: int, vote: int)
    requires Majority(tallies) == Normal(prefix + "_" + IntToString(voteType))
    ensures VotedWithDistrict(tallies, Num(vote)) == Normal(vote == voteType)
  {
    if '_' in IntToString(voteType) {
      IntToStringChars(voteType, '_');
    }
    LastSegmentAfter(prefix, IntToString(voteType), '_');
    if IntToString(voteType) == IntToString(vote) {
      IntToStringInjective(voteType, vote);
    }
  }

  /** A senator's label (null district) and a representative's (numeric district) never coincide. */
  lemma LabelsTellChambersApart(state: Value, party: Value, district: int)
    ensures LocationLabel(state, Null, party) != LocationLabel(state, Num(district), party)
  {
    assert |LocationLabel(state, Null, party)| < |LocationLabel(state, Num(district), party)|;
  }

  /**
   * Between the state and the party the label holds nothing for a `null` district,
   * and '-' followed by the district otherwise.
   */
  lemma LocationLabelParts(state: Value, district: Value, party: Value)
    ensures var r := LocationLabel(state, district, party);
      var middle := r[|ToStr(state)|..|r| - |" (" + ToStr(party) + ")"|];
      (middle == [] <==> district == Null)
      && (district != Null ==> middle == "-" + ToStr(district))
  {
    var r := LocationLabel(state, district, party);
    var mid := if district == Null then "" else "-" + ToStr(district);
    var tail := " (" + ToStr(party) + ")";
    assert r == ToStr(state) + mid + tail;
    assert r[|ToStr(state)|..|r| - |tail|] == mid;
  }

  /** A chart entry is labelled by the vote type after the key's last '_'. */
  lemma SliceLabel(prefix: string, voteType: string, count: Value)
    requires '_' !in voteType
    ensures SliceOf(Entry(prefix + "_" + voteType, count)) ==
      Slice(VoteLabel(voteType).0, count, VoteLabel(voteType).1)
  {
    LastSegmentAfter(prefix, voteType, '_');
  }
}
