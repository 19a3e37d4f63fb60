/** The batch navigator: one index walking over the extracted names, and the
    record and buttons derived from it. */
module BatchCertificates {
  import opened CertificateRecord

  /** names[index] || '': the entry at the index, or '' when there is none
      (an index outside the list reads as undefined). */
  function NameAt(names: seq<string>, index: int): string {
    if 0 <= index < |names| then names[index] else ""
  }

  /** currentCertificateData: the base record with the current name as
      recipient; the other four fields are shared by every certificate. */
  function CurrentCertificateData(baseData: CertificateData, names: seq<string>, currentIndex: int): (r: CertificateData)
    ensures 0 <= currentIndex < |names| ==> r.recipientName == names[currentIndex]
    ensures !(0 <= currentIndex < |names|) ==> r.recipientName == ""
    ensures forall f :: f != RecipientName ==> Get(r, f) == Get(baseData, f)
  {
    baseData.(recipientName := NameAt(names, currentIndex))
  }

  /** The index nextCertificate moves to. */
  function NextIndex(names: seq<string>, currentIndex: int): int {
    if currentIndex < |names| - 1 then currentIndex + 1 else currentIndex
  }

  /** The index prevCertificate moves to. */
  function PrevIndex(currentIndex: int): int {
    if currentIndex > 0 then currentIndex - 1 else currentIndex
  }

  predicate PrevDisabled(currentIndex: int) {
    currentIndex == 0
  }

  predicate NextDisabled(names: seq<string>, currentIndex: int) {
    currentIndex == |names| - 1
  }

  /** The counter "Certificate position of total". */
  function Counter(names: seq<string>, currentIndex: int): (int, int) {
    (currentIndex + 1, |names|)
  }

  /** The states the navigator can be in: the index starts at 0 and stays on
      the list once the list has an entry. */
  predicate IndexOk(names: seq<string>, currentIndex: int) {
    0 <= currentIndex && (currentIndex == 0 || currentIndex < |names|)
  }

  datatype Move = Next | Prev

  /** The index after pressing the buttons in the given order. */
  function Walk(names: seq<string>, currentIndex: int, moves: seq<Move>): int
    decreases |moves|
  {
    if moves == [] then currentIndex
    else
      var i := if moves[0] == Next then NextIndex(names, currentIndex) else PrevIndex(currentIndex);
      Walk(names, i, moves[1..])
  }

  /** One step keeps the index in its range. */
  lemma StepKeepsIndexOk(names: seq<string>, currentIndex: int)
    requires IndexOk(names, currentIndex)
    ensures IndexOk(names, NextIndex(names, currentIndex))
    ensures IndexOk(names, PrevIndex(currentIndex))
  {
  }

  /** For a non-empty list, every sequence of Next and Prev presses from the
      start leaves the index on the list. */
  lemma {:induction false} WalkStaysOnList(names: seq<string>, currentIndex: int, moves: seq<Move>)
    requires IndexOk(names, currentIndex)
    ensures IndexOk(names, Walk(names, currentIndex, moves))
    ensures |names| > 0 ==> 0 <= Walk(names, currentIndex, moves) < |names|
    decreases |moves|
  {
    if moves != [] {
      StepKeepsIndexOk(names, currentIndex);
      var i := if moves[0] == Next then NextIndex(names, currentIndex) else PrevIndex(currentIndex);
      WalkStaysOnList(names, i, moves[1..]);
    }
  }

  /** Each button is disabled exactly when pressing it would change nothing. */
  lemma DisabledIffNoMove(names: seq<string>, currentIndex: int)
    requires |names| > 0 && IndexOk(names, currentIndex)
    ensures PrevDisabled(currentIndex) <==> PrevIndex(currentIndex) == currentIndex
    ensures NextDisabled(names, currentIndex) <==> NextIndex(names, currentIndex) == currentIndex
  {
  }

  /** Stepping forward and back returns to the same certificate. */
  lemma NextThenPrev(names: seq<string>, currentIndex: int)
    requires 0 <= currentIndex < |names| - 1
    ensures PrevIndex(NextIndex(names, currentIndex)) == currentIndex
  {
  }

  /** The counter shows a position between 1 and the number of names. */
  lemma CounterOnList(names: seq<string>, currentIndex: int)
    requires |names| > 0 && IndexOk(names, currentIndex)
    ensures 1 <= Counter(names, currentIndex).0 <= Counter(names, currentIndex).1 == |names|
  {
  }

  /** As written, a new extraction re-renders the mounted navigator with the
      new list and keeps its index: after stepping to the third of three
      names, a one-name list shows "Certificate 3 of 1" with an empty
      recipient, and Next is enabled but does nothing. */
  lemma StaleIndexAfterNewBatch(baseData: CertificateData)
    ensures var i := Walk(["A", "B", "C"], 0, [Next, Next]);
      && i == 2
      && Counter(["X"], i) == (3, 1)
      && CurrentCertificateData(baseData, ["X"], i).recipientName == ""
      && !NextDisabled(["X"], i)
      && NextIndex(["X"], i) == i
      && !IndexOk(["X"], i)
  {
  }

  /** Starting a new list at its first entry, as intended, puts the counter
      and the recipient on the list. */
  lemma NewBatchStartsOnList(baseData: CertificateData, names: seq<string>)
    requires |names| > 0
    ensures IndexOk(names, 0)
    ensures 1 <= Counter(names, 0).0 <= Counter(names, 0).1
    ensures CurrentCertificateData(baseData, names, 0).recipientName == names[0]
    ensures PrevDisabled(0) && (NextDisabled(names, 0) <==> |names| == 1)
  {
  }

  /** The component's state: the names it was given and its current index. */
  class BatchNavigator {
    var names: seq<string>
    var currentIndex: int

    ghost predicate Valid()
      reads this
    {
      IndexOk(names, currentIndex)
    }

    constructor (names: seq<string>)
      ensures this.names == names && currentIndex == 0 && Valid()
    {
      this.names := names;
      currentIndex := 0;
    }

    method NextCertificate()
      requires Valid()
      modifies this`currentIndex
      ensures names == old(names)
      ensures Valid()
      ensures currentIndex == NextIndex(names, old(currentIndex))
    {
      if currentIndex < |names| - 1 {
        currentIndex := currentIndex + 1;
      }
    }

    /** A new extraction hands the navigator a new list; the index starts
        again at the first entry. */
    method ReceiveNames(newNames: seq<string>)
      modifies this
      ensures names == newNames && currentIndex == 0 && Valid()
    {
      names := newNames;
      currentIndex := 0;
    }

    method PrevCertificate()
      requires Valid()
      modifies this`currentIndex
      ensures names == old(names)
      ensures Valid()
      ensures currentIndex == PrevIndex(old(currentIndex))
    {
      if currentIndex > 0 {
        currentIndex := currentIndex - 1;
      }
    }
  }
}
