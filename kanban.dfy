/**
 * The recruitment board: five fixed stages in a fixed order, one column per
 * stage, each column holding the cards of its stage in input order and a
 * badge with their number.
 */
module Kanban {
  import opened Wrappers
  import opened Types
  import opened Seqs

  datatype Stage = Received | InterviewPlanned | InterviewCompleted | ClientWaiting | Recruited


  /** A candidate as the board shows it. */
  datatype KanbanCandidate = KanbanCandidate(
    id: string,
    firstName: string,
    lastName: string,
    position: string,
    stage: Stage,
    company: Option<string>,
    date: Option<Instant>,
    assignedTo: Option<string>,
    tags: Option<seq<string>>)

  datatype StageEntry = StageEntry(id: Stage, caption: string)

  /** `stageConfig`: the columns, left to right. */
  const StageConfig: seq<StageEntry> := [
    StageEntry(Received, "Applications"),
    StageEntry(InterviewPlanned, "Interview Scheduled"),
    StageEntry(InterviewCompleted, "Interview Completed"),
    StageEntry(ClientWaiting, "Client Review"),
    StageEntry(Recruited, "Hired")
  ]

  /** The stages of `StageConfig`, in order. */
  function ConfiguredStages(): (r: seq<Stage>)
    ensures |r| == 5
    ensures r == [Received, InterviewPlanned, InterviewCompleted, ClientWaiting, Recruited]
    ensures NoDuplicates(r)
  {
    var r := Map(StageConfig, (e: StageEntry) => e.id);
    assert r == [Received, InterviewPlanned, InterviewCompleted, ClientWaiting, Recruited];
    r
  }

  /** `stageConfig` has a column for every stage: the stage set is exactly the five configured ones. */
  lemma EveryStageConfigured(s: Stage)
    ensures s in ConfiguredStages()
    ensures exists i :: 0 <= i < |StageConfig| && StageConfig[i].id == s
  {
    var r := ConfiguredStages();
    var i := match s
      case Received => 0
      case InterviewPlanned => 1
      case InterviewCompleted => 2
      case ClientWaiting => 3
      case Recruited => 4;
    assert r[i] == s;
  }

  /** `c => c.stage === stage` */
  function OnStage(stage: Stage): KanbanCandidate -> bool {
    (c: KanbanCandidate) => c.stage == stage
  }

  /** `getCandidatesByStage(stage)`: the cards on `stage`, in input order. */
  function ByStage(cs: seq<KanbanCandidate>, stage: Stage): (r: seq<KanbanCandidate>)
    ensures forall c :: c in r <==> c in cs && c.stage == stage
    ensures IsSubsequence(r, cs)
  {
    FilterIsSubsequence(cs, OnStage(stage));
    Filter(cs, OnStage(stage))
  }

  /** One rendered column: its stage, heading, badge count and cards. */
  datatype Column = Column(stage: Stage, caption: string, badge: nat, cards: seq<KanbanCandidate>)

  function ColumnFor(cs: seq<KanbanCandidate>, e: StageEntry): Column {
    var cards := ByStage(cs, e.id);
    Column(e.id, e.caption, |cards|, cards)
  }

  /** `stageConfig.map(...)`: one column per configured stage, whether or not it has cards. */
  function Board(cs: seq<KanbanCandidate>): (r: seq<Column>)
    ensures |r| == |StageConfig|
    ensures forall i :: 0 <= i < |r| ==> r[i].stage == StageConfig[i].id && r[i].caption == StageConfig[i].caption
    ensures forall i :: 0 <= i < |r| ==> r[i].badge == |r[i].cards|
    ensures forall i :: 0 <= i < |r| ==> r[i].cards == ByStage(cs, r[i].stage)
  {
    Map(StageConfig, (e: StageEntry) => ColumnFor(cs, e))
  }

  /** What the default card shows and whom its click names. */
  datatype Card = Card(title: string, subtitle: string, clickId: string)

  /** `renderDefaultCard`: the name, the position, and `onCandidateClick(candidate.id)`. */
  function DefaultCard(c: KanbanCandidate): (r: Card)
    ensures r.clickId == c.id && r.subtitle == c.position
    ensures |r.title| == |c.firstName| + 1 + |c.lastName|
  {
    Card(c.firstName + " " + c.lastName, c.position, c.id)
  }

  /** The cards of one column, as rendered. */
  function ColumnCards(col: Column): (r: seq<Card>)
    ensures |r| == |col.cards|
  {
    Map(col.cards, DefaultCard)
  }

  /** Clicking the j-th card of a column names the id of the j-th candidate of that stage. */
  lemma CardClickNamesCandidate(cs: seq<KanbanCandidate>, i: nat, j: nat)
    requires i < |StageConfig| && j < |Board(cs)[i].cards|
    ensures ColumnCards(Board(cs)[i])[j].clickId == ByStage(cs, StageConfig[i].id)[j].id
    ensures ByStage(cs, StageConfig[i].id)[j] in cs
  {
  }

  /** Every card lies in exactly the bucket of its own stage. */
  lemma OneBucketEach(cs: seq<KanbanCandidate>, c: KanbanCandidate, stage: Stage)
    requires c in cs
    ensures c in ByStage(cs, stage) <==> stage == c.stage
  {
  }

  /** Bucketing a list with one more card in front. */
  lemma ByStageCons(c: KanbanCandidate, rest: seq<KanbanCandidate>, stage: Stage)
    ensures ByStage([c] + rest, stage) == (if c.stage == stage then [c] else []) + ByStage(rest, stage)
  {
    assert ([c] + rest)[1..] == rest;
  }

  /** The five buckets, added up. */
  function Buckets(cs: seq<KanbanCandidate>): multiset<KanbanCandidate> {
    multiset(ByStage(cs, Received)) + multiset(ByStage(cs, InterviewPlanned))
    + multiset(ByStage(cs, InterviewCompleted)) + multiset(ByStage(cs, ClientWaiting))
    + multiset(ByStage(cs, Recruited))
  }

  /** One more card in front lands in exactly one bucket. */
  lemma BucketsCons(c: KanbanCandidate, rest: seq<KanbanCandidate>)
    ensures Buckets([c] + rest) == multiset{c} + Buckets(rest)
  {
    ByStageCons(c, rest, Received);
    ByStageCons(c, rest, InterviewPlanned);
    ByStageCons(c, rest, InterviewCompleted);
    ByStageCons(c, rest, ClientWaiting);
    ByStageCons(c, rest, Recruited);
  }

  /** The five buckets together hold every card exactly as often as the input does. */
  lemma {:induction false} BucketsPartition(cs: seq<KanbanCandidate>)
    ensures multiset(ByStage(cs, Received)) + multiset(ByStage(cs, InterviewPlanned))
            + multiset(ByStage(cs, InterviewCompleted)) + multiset(ByStage(cs, ClientWaiting))
            + multiset(ByStage(cs, Recruited)) == multiset(cs)
    decreases |cs|
  {
    if |cs| > 0 {
      BucketsPartition(cs[1..]);
      BucketsCons(cs[0], cs[1..]);
      assert cs == [cs[0]] + cs[1..];
    }
    assert Buckets(cs) == multiset(cs);
  }

  /** A card's multiplicity in a bucket is its multiplicity in the input when the stage is its own, else zero. */
  lemma BucketMultiplicity(cs: seq<KanbanCandidate>, c: KanbanCandidate, stage: Stage)
    ensures multiset(ByStage(cs, stage))[c] == if c.stage == stage then multiset(cs)[c] else 0
  {
    BucketsPartition(cs);
    if c.stage != stage {
      assert c !in ByStage(cs, stage);
    } else {
      forall s: Stage | s != stage ensures multiset(ByStage(cs, s))[c] == 0 {
        assert c !in ByStage(cs, s);
      }
    }
  }

  /** The sum of all buckets of the board over its columns. */
  function AllCards(cols: seq<Column>): seq<KanbanCandidate> {
    if |cols| == 0 then [] else cols[0].cards + AllCards(cols[1..])
  }

  function BadgeTotal(cols: seq<Column>): nat {
    if |cols| == 0 then 0 else cols[0].badge + BadgeTotal(cols[1..])
  }

  /** Five columns, spelled out. */
  lemma FiveColumns(b: seq<Column>)
    requires |b| == 5
    ensures AllCards(b) == b[0].cards + (b[1].cards + (b[2].cards + (b[3].cards + b[4].cards)))
    ensures BadgeTotal(b) == b[0].badge + b[1].badge + b[2].badge + b[3].badge + b[4].badge
  {
    var t := b[4..];
    assert |t[1..]| == 0 && t[0] == b[4];
    assert AllCards(t) == b[4].cards + AllCards(t[1..]) == b[4].cards;
    assert BadgeTotal(t) == b[4].badge;
    assert b[3..][1..] == t && b[3..][0] == b[3];
    assert AllCards(b[3..]) == b[3].cards + b[4].cards;
    assert BadgeTotal(b[3..]) == b[3].badge + b[4].badge;
    assert b[2..][1..] == b[3..] && b[2..][0] == b[2];
    assert AllCards(b[2..]) == b[2].cards + (b[3].cards + b[4].cards);
    assert BadgeTotal(b[2..]) == b[2].badge + b[3].badge + b[4].badge;
    assert b[1..][1..] == b[2..] && b[1..][0] == b[1];
    assert AllCards(b[1..]) == b[1].cards + (b[2].cards + (b[3].cards + b[4].cards));
    assert BadgeTotal(b[1..]) == b[1].badge + b[2].badge + b[3].badge + b[4].badge;
    assert AllCards(b) == b[0].cards + AllCards(b[1..]);
  }

  /** The board loses and duplicates no card: its columns together hold exactly the input,
      and the badges sum to the number of cards. */
  lemma BoardPartition(cs: seq<KanbanCandidate>)
    ensures multiset(AllCards(Board(cs))) == multiset(cs)
    ensures BadgeTotal(Board(cs)) == |cs|
  {
    var b := Board(cs);
    FiveColumns(b);
    BucketsPartition(cs);
    assert b[0].stage == Received && b[1].stage == InterviewPlanned && b[2].stage == InterviewCompleted
      && b[3].stage == ClientWaiting && b[4].stage == Recruited;
    assert multiset(AllCards(b)) == multiset(b[0].cards) + multiset(b[1].cards) + multiset(b[2].cards)
      + multiset(b[3].cards) + multiset(b[4].cards);
    assert |multiset(cs)| == |cs|;
  }

  /** The worked example: a received card and a recruited card, five columns, three of them empty. */
  lemma TwoCardExample(a: KanbanCandidate, b: KanbanCandidate)
    requires a.stage == Received && b.stage == Recruited
    ensures Board([a, b])[0].cards == [a] && Board([a, b])[4].cards == [b]
    ensures Board([a, b])[1].cards == [] && Board([a, b])[2].cards == [] && Board([a, b])[3].cards == []
  {
    assert [a, b] == [a] + [b];
    assert [b] == [b] + [];
    forall s: Stage ensures ByStage([a, b], s) == (if s == Received then [a] else []) + (if s == Recruited then [b] else []) {
      ByStageCons(a, [b], s);
      ByStageCons(b, [], s);
    }
  }
}
