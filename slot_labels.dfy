/**
 * Slot labels ("HH:MM") and the availability filter every slot handler shares:
 * the candidate labels minus the booked ones, order kept.
 */
module SlotLabels {
  import opened Wrappers
  import opened Seqs
  import opened Text

  /** Two zero-padded decimal digits. */
  function Pad2(n: nat): (r: string)
    requires n < 100
    ensures |r| == 2 && IsDigit(r[0]) && IsDigit(r[1])
    ensures DigitValue(r[0]) * 10 + DigitValue(r[1]) == n
  {
    [DigitChar(n / 10), DigitChar(n % 10)]
  }

  /** `t.padStart(2, '0')`. */
  function PadStart2(t: string): (r: string)
    ensures |t| >= 2 ==> r == t
    ensures |t| < 2 ==> |r| == 2 && r[2 - |t|..] == t
    ensures forall i :: 0 <= i < |r| - |t| ==> r[i] == '0'
    decreases 2 - |t|
  {
    if |t| >= 2 then t else PadStart2("0" + t)
  }

  /** `hour.toString().padStart(2, '0')` is the two-digit form of an hour below 100. */
  lemma PadStartIsPad2(n: nat)
    requires n < 100
    ensures PadStart2(NatText(n)) == Pad2(n)
  {
    if n >= 10 {
      assert NatText(n) == NatText(n / 10) + [DigitChar(n % 10)];
      assert NatText(n / 10) == [DigitChar(n / 10)];
    }
  }

  /** The label of a time of day: two-digit hour, a colon, two-digit minute. */
  function Label(hour: nat, minute: nat): (r: string)
    requires hour < 100 && minute < 100
    ensures |r| == 5 && r[2] == ':'
  {
    Pad2(hour) + ":" + Pad2(minute)
  }

  /** Reads a "HH:MM" label back as minutes after midnight; None for any other text. */
  function Clock(slot: string): Option<nat>
  {
    if |slot| == 5 && IsDigit(slot[0]) && IsDigit(slot[1]) && slot[2] == ':'
      && IsDigit(slot[3]) && IsDigit(slot[4])
    then Some((DigitValue(slot[0]) * 10 + DigitValue(slot[1])) * 60
      + DigitValue(slot[3]) * 10 + DigitValue(slot[4]))
    else None
  }

  lemma LabelClock(hour: nat, minute: nat)
    requires hour < 100 && minute < 100
    ensures Clock(Label(hour, minute)) == Some(hour * 60 + minute)
  {
    var r := Label(hour, minute);
    assert r[..2] == Pad2(hour) && r[3..] == Pad2(minute);
  }

  /** Labels of different times of day differ, and equal labels mean equal times. */
  lemma LabelInjective(h1: nat, m1: nat, h2: nat, m2: nat)
    requires h1 < 100 && m1 < 60 && h2 < 100 && m2 < 60
    ensures Label(h1, m1) == Label(h2, m2) <==> h1 == h2 && m1 == m2
  {
    LabelClock(h1, m1);
    LabelClock(h2, m2);
  }

  /** Label `a` names an earlier time of day than label `b`. */
  function Earlier(): (string, string) -> bool
  {
    (a: string, b: string) => Clock(a).Some? && Clock(b).Some? && Clock(a).value < Clock(b).value
  }

  /** Every element is a well-formed label and the times strictly increase. */
  predicate StrictlyAscending(labels: seq<string>)
  {
    (forall i :: 0 <= i < |labels| ==> Clock(labels[i]).Some?) && Sorted(labels, Earlier())
  }

  /** Every label is on the hour or on the half hour. */
  predicate OnHalfHours(labels: seq<string>)
  {
    forall i :: 0 <= i < |labels| ==> Clock(labels[i]).Some? && Clock(labels[i]).value % 30 == 0
  }

  function NotBooked(booked: seq<string>): string -> bool
  {
    (slot: string) => slot !in booked
  }

  /** `candidates.filter(slot => !booked.includes(slot))`. */
  function RemoveBooked(candidates: seq<string>, booked: seq<string>): (r: seq<string>)
    ensures IsSubsequence(r, candidates)
    ensures forall t :: t in r <==> t in candidates && t !in booked
  {
    FilterIsSubsequence(candidates, NotBooked(booked));
    Filter(candidates, NotBooked(booked))
  }

  /** With nothing booked every candidate is offered, in order. */
  lemma RemoveNothing(candidates: seq<string>)
    ensures RemoveBooked(candidates, []) == candidates
  {
    FilterKeepsAll(candidates, NotBooked([]));
  }

  /** Booked times that are not candidates change nothing. */
  lemma RemoveBookedIgnoresNonCandidates(candidates: seq<string>, booked: seq<string>, extra: seq<string>)
    requires forall t :: t in extra ==> t !in candidates
    ensures RemoveBooked(candidates, booked + extra) == RemoveBooked(candidates, booked)
  {
    FilterAgree(candidates, NotBooked(booked + extra), NotBooked(booked));
  }

  /** Only the membership of the booked list matters, not its order or repetitions. */
  lemma RemoveBookedBySet(candidates: seq<string>, b1: seq<string>, b2: seq<string>)
    requires forall t :: t in b1 <==> t in b2
    ensures RemoveBooked(candidates, b1) == RemoveBooked(candidates, b2)
  {
    FilterAgree(candidates, NotBooked(b1), NotBooked(b2));
  }

  lemma {:induction false} SubsequenceKeepsSorted<T>(sub: seq<T>, s: seq<T>, le: (T, T) -> bool)
    requires IsSubsequence(sub, s) && Sorted(s, le)
    ensures Sorted(sub, le)
    decreases |s|
  {
    if sub != [] && s != [] {
      assert Sorted(s[1..], le) by {
        forall i, j | 0 <= i < j < |s[1..]| ensures le(s[1..][i], s[1..][j]) {
          assert s[1..][i] == s[i + 1] && s[1..][j] == s[j + 1];
        }
      }
      if sub[0] == s[0] && IsSubsequence(sub[1..], s[1..]) {
        SubsequenceKeepsSorted(sub[1..], s[1..], le);
        SubsequenceMembers(sub[1..], s[1..]);
        forall j | 0 < j < |sub| ensures le(sub[0], sub[j]) {
          assert sub[j] == sub[1..][j - 1];
          assert sub[j] in sub[1..];
          var k :| 0 <= k < |s[1..]| && s[1..][k] == sub[j];
          assert s[k + 1] == sub[j];
        }
      } else {
        SubsequenceKeepsSorted(sub, s[1..], le);
      }
    }
  }

  lemma {:induction false} SubsequenceMembers<T>(sub: seq<T>, s: seq<T>)
    requires IsSubsequence(sub, s)
    ensures forall x :: x in sub ==> x in s
    decreases |s|
  {
    if sub != [] && s != [] {
      if sub[0] == s[0] && IsSubsequence(sub[1..], s[1..]) {
        SubsequenceMembers(sub[1..], s[1..]);
        assert sub == [sub[0]] + sub[1..];
      } else {
        SubsequenceMembers(sub, s[1..]);
      }
    }
  }

  /** Removing booked labels from an ascending list leaves an ascending list. */
  lemma RemoveBookedAscending(candidates: seq<string>, booked: seq<string>)
    requires StrictlyAscending(candidates)
    ensures StrictlyAscending(RemoveBooked(candidates, booked))
  {
    var r := RemoveBooked(candidates, booked);
    SubsequenceKeepsSorted(r, candidates, Earlier());
  }

  /** `n` labels from 09:00 on, half an hour apart: 09:00, 09:30, 10:00, ... */
  function HalfHourLabels(n: nat): (r: seq<string>)
    requires n <= 30
    ensures |r| == n
  {
    seq(n, k requires 0 <= k < n => Label(9 + k / 2, k % 2 * 30))
  }

  /** The k-th label is k half hours after 09:00. */
  lemma HalfHourLabelsTimes(n: nat)
    requires n <= 30
    ensures forall k :: 0 <= k < n ==> Clock(HalfHourLabels(n)[k]) == Some(540 + 30 * k)
  {
    forall k | 0 <= k < n ensures Clock(HalfHourLabels(n)[k]) == Some(540 + 30 * k) {
      LabelClock(9 + k / 2, k % 2 * 30);
    }
  }

  /** Hence the labels are well formed, strictly ascending and on the half hour. */
  lemma HalfHourLabelsAscending(n: nat)
    requires n <= 30
    ensures StrictlyAscending(HalfHourLabels(n)) && OnHalfHours(HalfHourLabels(n))
  {
    HalfHourLabelsTimes(n);
    EvenlySpacedAscending(HalfHourLabels(n), 540, 30);
  }

  /** Labels whose times go up by a fixed positive step, from `start` on, ascend strictly. */
  lemma EvenlySpacedAscending(labels: seq<string>, start: nat, step: nat)
    requires step > 0
    requires forall k :: 0 <= k < |labels| ==> Clock(labels[k]) == Some(start + step * k)
    ensures StrictlyAscending(labels)
    ensures step % 30 == 0 && start % 30 == 0 ==> OnHalfHours(labels)
  {
    forall i, j | 0 <= i < j < |labels| ensures Earlier()(labels[i], labels[j]) {
      assert step * i < step * j by { StepMonotone(step, i, j); }
    }
    if step % 30 == 0 && start % 30 == 0 {
      forall k | 0 <= k < |labels| ensures Clock(labels[k]).value % 30 == 0 {
        assert (start + step * k) % 30 == 0 by { StepMultiple(start, step, k); }
      }
    }
  }

  lemma StepMonotone(step: nat, i: nat, j: nat)
    requires step > 0 && i < j
    ensures step * i < step * j
  {
    assert step * j == step * i + step * (j - i);
  }

  lemma StepMultiple(start: nat, step: nat, k: nat)
    requires step % 30 == 0 && start % 30 == 0
    ensures (start + step * k) % 30 == 0
  {
    assert step * k == 30 * ((step / 30) * k);
  }

  /** A shorter run of half-hour labels is a prefix of a longer one. */
  lemma HalfHourLabelsPrefix(m: nat, n: nat)
    requires m <= n <= 30
    ensures HalfHourLabels(m) == HalfHourLabels(n)[..m]
  {
  }
}
