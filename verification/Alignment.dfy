/** Which devices of a snapshot get their own scheduler back. A device without a scheduler word
    shifts the words after it by one; a second one shifts them back. */
module Alignment {
  import opened Text
  import opened StateBackup

  /** How many of the first `i` devices have no scheduler. */
  function Nameless(ios: seq<IoScheduler>, i: nat): nat
    requires i <= |ios|
  {
    if i == 0 then 0 else Nameless(ios, i - 1) + if ios[i - 1].scheduler == "" then 1 else 0
  }

  /** The position of a device's name among the words of the section. */
  function Position(ios: seq<IoScheduler>, i: nat): int
    requires i <= |ios|
  {
    2 * i - Nameless(ios, i)
  }

  /** The section tells its words apart: device names differ from each other and from every
      scheduler name, and none is empty. */
  ghost predicate Distinct(ios: seq<IoScheduler>) {
    && (forall i :: 0 <= i < |ios| ==> ios[i].device != "")
    && (forall i, j :: 0 <= i < j < |ios| ==> ios[i].device != ios[j].device)
    && (forall i, j :: 0 <= i < |ios| && 0 <= j < |ios| ==> ios[i].device != ios[j].scheduler)
  }

  lemma {:induction false} NamelessTail(ios: seq<IoScheduler>, i: nat)
    requires 0 < i <= |ios|
    ensures Nameless(ios, i) == (if ios[0].scheduler == "" then 1 else 0) + Nameless(ios[1..], i - 1)
  {
    if i > 1 {
      NamelessTail(ios, i - 1);
      assert ios[1..][i - 2] == ios[i - 1];
    }
  }

  /** A device's words are at its position. */
  lemma {:induction false} WordsAt(ios: seq<IoScheduler>, i: nat)
    requires i < |ios|
    ensures var p := Position(ios, i); var words := Words(ios);
      && 0 <= p < |words| && words[p] == ios[i].device
      && (ios[i].scheduler != "" ==> p + 1 < |words| && words[p + 1] == ios[i].scheduler)
    decreases ios
  {
    if i > 0 {
      NamelessTail(ios, i);
      WordsAt(ios[1..], i - 1);
      var first := if ios[0].scheduler == "" then [ios[0].device] else [ios[0].device, ios[0].scheduler];
      assert Words(ios) == first + Words(ios[1..]);
      assert Position(ios, i) == |first| + Position(ios[1..], i - 1);
    }
  }

  /** Every word is a device's name at its position, or its scheduler right after it. */
  lemma {:induction false} WordBelongs(ios: seq<IoScheduler>, p: nat) returns (i: nat)
    requires p < |Words(ios)|
    ensures i < |ios|
    ensures (p == Position(ios, i) && Words(ios)[p] == ios[i].device)
         || (p == Position(ios, i) + 1 && ios[i].scheduler != "" && Words(ios)[p] == ios[i].scheduler)
    decreases ios
  {
    var first := if ios[0].scheduler == "" then [ios[0].device] else [ios[0].device, ios[0].scheduler];
    assert Words(ios) == first + Words(ios[1..]);
    if p < |first| {
      i := 0;
    } else {
      var k := WordBelongs(ios[1..], p - |first|);
      i := k + 1;
      NamelessTail(ios, i);
    }
  }

  /** What the reader makes of the section. */
  function ReadIos(ios: seq<IoScheduler>): seq<IoScheduler> {
    PairUp(Words(ios), |ios|)
  }

  lemma NamelessAtMost(ios: seq<IoScheduler>, i: nat)
    requires i <= |ios|
    ensures Nameless(ios, i) <= i
  {
    if i > 0 {
      NamelessAtMost(ios, i - 1);
    }
  }

  /** An even number of missing schedulers before a named device leaves it in place. */
  lemma EvenIsRead(ios: seq<IoScheduler>, i: nat)
    requires i < |ios| && ios[i].scheduler != "" && Nameless(ios, i) % 2 == 0
    ensures ios[i] in ReadIos(ios)
  {
    WordsAt(ios, i);
    NamelessAtMost(ios, i);
    var k := i - Nameless(ios, i) / 2;
    PairUpAt(Words(ios), |ios|, k);
    assert 2 * k == Position(ios, i);
    assert ReadIos(ios)[k] == ios[i];
  }

  /** A record that names a device is at half the device's position. */
  lemma RecordOfDevice(ios: seq<IoScheduler>, k: nat, i: nat)
    requires Distinct(ios) && k < |ios| && i < |ios| && ReadIos(ios)[k].device == ios[i].device
    ensures Position(ios, i) == 2 * k && Nameless(ios, i) % 2 == 0
  {
    hide PairUp;
    PairUpAt(Words(ios), |ios|, k);
    assert 2 * k < |Words(ios)|;
    var j := WordBelongs(ios, 2 * k);
    assert j == i;
    hide Words;
  }

  /** Every record is one of the section, or its scheduler is empty or the name of a device. */
  lemma RecordIsOwnOrShifted(ios: seq<IoScheduler>, k: nat)
    requires k < |ios|
    ensures var r := ReadIos(ios)[k];
      || (r in ios && r.scheduler != "")
      || r.scheduler == ""
      || exists j :: 0 <= j < |ios| && r.scheduler == ios[j].device
  {
    hide PairUp;
    var words := Words(ios);
    PairUpAt(words, |ios|, k);
    if 2 * k + 1 < |words| {
      var j := WordBelongs(ios, 2 * k + 1);
      if Position(ios, j) == 2 * k {
        WordsAt(ios, j);
        assert ReadIos(ios)[k] == ios[j];
      }
    }
    hide Words;
  }

  /** A device with a scheduler is read back with it exactly when an even number of devices
      before it have none; otherwise no record names the device at all. */
  lemma ReadBackExactly(ios: seq<IoScheduler>, i: nat)
    requires Distinct(ios) && i < |ios| && ios[i].scheduler != ""
    ensures ios[i] in ReadIos(ios) <==> Nameless(ios, i) % 2 == 0
    ensures Nameless(ios, i) % 2 == 1 ==> forall r <- ReadIos(ios) :: r.device != ios[i].device
  {
    hide ReadIos, Distinct, Nameless;
    if Nameless(ios, i) % 2 == 0 {
      EvenIsRead(ios, i);
    }
    ReadLength(ios);
    forall r <- ReadIos(ios) | r.device == ios[i].device ensures Nameless(ios, i) % 2 == 0 {
      var k :| 0 <= k < |ios| && ReadIos(ios)[k] == r;
      RecordOfDevice(ios, k, i);
    }
  }

  lemma ReadLength(ios: seq<IoScheduler>)
    ensures |ReadIos(ios)| == |ios|
  {
  }

  /** A record that names a device either is that device's own or has a scheduler that is empty
      or the name of a device. */
  lemma RecordsOf(ios: seq<IoScheduler>, i: nat, r: IoScheduler)
    requires Distinct(ios) && i < |ios| && r in ReadIos(ios) && r.device == ios[i].device
    ensures r == ios[i] || r.scheduler == "" || exists j :: 0 <= j < |ios| && r.scheduler == ios[j].device
    ensures ios[i].scheduler != "" ==> r == ios[i]
  {
    ReadLength(ios);
    var k :| 0 <= k < |ios| && ReadIos(ios)[k] == r;
    RecordIsOwnOrShifted(ios, k);
    RecordOfDevice(ios, k, i);
    hide ReadIos, Nameless, Words, PairUp;
    if ios[i].scheduler != "" {
      OwnRecord(ios, k, i);
    } else if r in ios {
      var j :| 0 <= j < |ios| && ios[j] == r;
      assert j == i;
    }
  }

  lemma OwnRecord(ios: seq<IoScheduler>, k: nat, i: nat)
    requires i < |ios| && k < |ios| && Position(ios, i) == 2 * k && ios[i].scheduler != ""
    ensures ReadIos(ios)[k] == ios[i]
  {
    hide PairUp;
    WordsAt(ios, i);
    PairUpAt(Words(ios), |ios|, k);
  }
}
