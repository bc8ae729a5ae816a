/** The upload closure of the Kubernetes controller (internal/kubecontroller/controller.go):
    the sequence is saved before the snapshot that carries it is sent, and a failed
    upload sends the same snapshot again. */
module Collector {

  /** A sent snapshot: its sequence and its content. */
  datatype Sent = Sent(sequence: nat, content: string)

  const ATTEMPTS := 5

  /** A number stands for one content only. */
  ghost predicate Unambiguous(sent: seq<Sent>) {
    forall i, j :: 0 <= i < |sent| && 0 <= j < |sent| && sent[i].sequence == sent[j].sequence ==> sent[i] == sent[j]
  }

  ghost predicate Bounded(sent: seq<Sent>, sequence: nat) {
    forall i :: 0 <= i < |sent| ==> 0 < sent[i].sequence <= sequence
  }

  ghost predicate Rising(sent: seq<Sent>) {
    forall i, j :: 0 <= i <= j < |sent| ==> sent[i].sequence <= sent[j].sequence
  }

  function Copies(n: nat, x: Sent): seq<Sent> {
    seq(n, _ => x)
  }

  /** Sending one new number any number of times keeps the record clean. */
  lemma CopiesClean(sent: seq<Sent>, saved: nat, x: Sent, n: nat)
    requires Bounded(sent, saved) && Rising(sent) && Unambiguous(sent) && saved < x.sequence
    ensures var all := sent + Copies(n, x); Bounded(all, x.sequence) && Rising(all) && Unambiguous(all)
  {
    var all := sent + Copies(n, x);
    assert forall i :: |sent| <= i < |all| ==> all[i] == x;
    assert forall i :: 0 <= i < |sent| ==> all[i] == sent[i] && all[i].sequence <= saved;
  }

  lemma OneMoreCopy(sent: seq<Sent>, n: nat, x: Sent)
    ensures sent + Copies(0, x) == sent
    ensures sent + Copies(n + 1, x) == sent + Copies(n, x) + [x]
  {
    assert Copies(n + 1, x) == Copies(n, x) + [x];
  }

  lemma BoundGrows(sent: seq<Sent>, less: nat, more: nat)
    requires Bounded(sent, less) && less <= more
    ensures Bounded(sent, more)
  {
  }

  class Controller {
    var sequence: nat        // cfg.Sequence in memory
    var saved: nat           // the configuration file
    ghost var sent: seq<Sent>

    ghost predicate Valid()
      reads this
    {
      saved <= sequence && Bounded(sent, saved) && Rising(sent) && Unambiguous(sent)
    }

    constructor (start: nat)
      ensures Valid() && sequence == saved == start && sent == []
    {
      sequence, saved, sent := start, start, [];
    }

    /** One upload. `saves` tells whether the configuration could be written, `scans`
        whether the snapshot could be built, and `fails[k]` whether attempt k fails; a
        cancelled context ends the waiting after attempt `patience`. */
    method Upload(content: string, saves: bool, scans: bool, fails: seq<bool>, patience: nat) returns (ok: bool, tries: nat)
      requires Valid() && |fails| == ATTEMPTS
      modifies this
      ensures Valid()
      ensures sequence == old(sequence) + 1 && saved == if saves then sequence else old(saved)
      ensures tries <= ATTEMPTS && sent == old(sent) + Copies(tries, Sent(sequence, content))
      ensures tries == 0 <==> !saves || !scans
      ensures ok <==> tries > 0 && !fails[tries - 1]
      ensures forall k :: 0 <= k < tries - 1 ==> fails[k]
      ensures saves && scans && !ok ==> tries == ATTEMPTS || tries == patience + 1
    {
      hide Copies, Bounded, Rising, Unambiguous;
      ghost var before := sent;
      sequence := sequence + 1;
      ghost var x := Sent(sequence, content);
      OneMoreCopy(before, 0, x);
      if !saves {
        return false, 0;
      }
      saved := sequence;
      if !scans {
        BoundGrows(before, old(saved), saved);
        return false, 0;
      }
      tries := 0;
      ok := false;
      while tries < ATTEMPTS
        invariant tries <= ATTEMPTS && tries <= patience && !ok
        invariant sequence == old(sequence) + 1 && saved == sequence
        invariant sent == before + Copies(tries, x)
        invariant forall k :: 0 <= k < tries ==> fails[k]
      {
        OneMoreCopy(before, tries, x);
        sent := sent + [Sent(sequence, content)];
        tries := tries + 1;
        ok := !fails[tries - 1];
        if ok || tries == ATTEMPTS || tries - 1 == patience {
          break;
        }
      }
      CopiesClean(before, old(saved), x, tries);
    }

    /** The controller stops and starts again from its configuration file. */
    method Restart()
      requires Valid()
      modifies this
      ensures Valid() && sequence == saved == old(saved) && sent == old(sent)
    {
      sequence := saved;
    }
  }
}
