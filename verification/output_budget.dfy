// The per-attempt output budget: a ledger of live bytes kept on the attempt row and of archived
// bytes kept on the rows of late observations (harness/node/output_budget.go).
module OutputBudget {

  const MAXIMUM_ATTEMPT_OUTPUT_BYTES: nat := 64 * 1024 * 1024

  datatype Charge = Charge(exceeded: bool, newlyExceeded: bool)

  // What one attempt has used: `active` is attempts.output_bytes, `archived` the column
  // late_observations.output_bytes of its keyed rows, oldest first.
  datatype Ledger = Ledger(active: nat, archived: seq<nat>)
  {
    function Total(): nat { active + Sum(archived) }

    // attemptOutputExceeded
    predicate Exceeded() { Total() > MAXIMUM_ATTEMPT_OUTPUT_BYTES }
  }

  function Sum(s: seq<nat>): nat {
    if s == [] then 0 else Sum(s[..|s| - 1]) + s[|s| - 1]
  }

  lemma {:induction false} SumAppend(s: seq<nat>, t: seq<nat>)
    ensures Sum(s + t) == Sum(s) + Sum(t)
  {
    if t == [] {
      assert s + t == s;
    } else {
      var u := t[..|t| - 1];
      SumAppend(s, u);
      assert (s + t)[..|s + t| - 1] == s + u;
    }
  }

  // chargeAttemptOutput
  function ChargeLive(used: nat, archived: nat, bytes: nat): (r: (Charge, nat))
    requires bytes <= MAXIMUM_ATTEMPT_OUTPUT_BYTES
  {
    if used > MAXIMUM_ATTEMPT_OUTPUT_BYTES || archived > MAXIMUM_ATTEMPT_OUTPUT_BYTES
       || used > MAXIMUM_ATTEMPT_OUTPUT_BYTES - archived then
      (Charge(true, false), used)
    else if bytes > MAXIMUM_ATTEMPT_OUTPUT_BYTES - used - archived then
      (Charge(true, true), MAXIMUM_ATTEMPT_OUTPUT_BYTES + 1)
    else
      (Charge(false, false), used + bytes)
  }

  // chargeArchivedAttemptOutput: the second component is what the archive row must carry.
  function ChargeArchived(used: nat, archived: nat, bytes: nat): (r: (Charge, nat))
    requires bytes <= MAXIMUM_ATTEMPT_OUTPUT_BYTES
  {
    if used > MAXIMUM_ATTEMPT_OUTPUT_BYTES || archived > MAXIMUM_ATTEMPT_OUTPUT_BYTES
       || used > MAXIMUM_ATTEMPT_OUTPUT_BYTES - archived then
      (Charge(true, false), 0)
    else if bytes > MAXIMUM_ATTEMPT_OUTPUT_BYTES - (used + archived) then
      (Charge(true, true), MAXIMUM_ATTEMPT_OUTPUT_BYTES + 1 - (used + archived))
    else
      (Charge(false, false), bytes)
  }

  // The bytes of one distinct projection, before it is known whether they fit.
  datatype Output = Live(bytes: nat) | Archived(bytes: nat)

  type ValidOutput = o: Output | o.bytes <= MAXIMUM_ATTEMPT_OUTPUT_BYTES witness Live(0)

  // One charge. An archive row is written unless the budget was already exceeded
  // (archiveAdapterEvent returns before its insert in that case).
  function Apply(ledger: Ledger, output: ValidOutput): (Ledger, Charge) {
    match output
    case Live(bytes) =>
      var (charge, used) := ChargeLive(ledger.active, Sum(ledger.archived), bytes);
      (ledger.(active := used), charge)
    case Archived(bytes) =>
      var (charge, stored) := ChargeArchived(ledger.active, Sum(ledger.archived), bytes);
      (if charge.exceeded && !charge.newlyExceeded then ledger
       else ledger.(archived := ledger.archived + [stored]), charge)
  }

  // What a sequence of charges leaves: the ledger, the bytes that were let through, and how often
  // an overflow was announced.
  datatype Account = Account(ledger: Ledger, accepted: nat, announced: nat)

  const OPENED := Account(Ledger(0, []), 0, 0)

  function Charged(outputs: seq<ValidOutput>): Account {
    if outputs == [] then OPENED
    else
      var before := Charged(outputs[..|outputs| - 1]);
      var last := outputs[|outputs| - 1];
      var (ledger, charge) := Apply(before.ledger, last);
      Account(ledger,
              before.accepted + (if charge.exceeded then 0 else last.bytes),
              before.announced + (if charge.newlyExceeded then 1 else 0))
  }

  // Until the overflow the accepted bytes are exactly the ledger total; they never pass the maximum;
  // and the overflow is announced exactly once, by the charge that makes the ledger exceed.
  lemma {:induction false} BudgetHolds(outputs: seq<ValidOutput>)
    ensures var a := Charged(outputs);
      && a.accepted <= MAXIMUM_ATTEMPT_OUTPUT_BYTES
      && (!a.ledger.Exceeded() ==> a.accepted == a.ledger.Total())
      && a.announced == (if a.ledger.Exceeded() then 1 else 0)
  {
    if outputs != [] {
      var shorter := outputs[..|outputs| - 1];
      BudgetHolds(shorter);
      var before := Charged(shorter).ledger;
      var last := outputs[|outputs| - 1];
      ApplyEffect(before, last);
    }
  }

  // The effect of one charge on the total, whichever ledger it goes to.
  lemma ApplyEffect(ledger: Ledger, output: ValidOutput)
    ensures var (after, charge) := Apply(ledger, output);
      && charge.exceeded == after.Exceeded()
      && charge.newlyExceeded == (after.Exceeded() && !ledger.Exceeded())
      && (ledger.Exceeded() ==> after == ledger)
      && (!ledger.Exceeded() ==>
            (after.Exceeded() <==> ledger.Total() + output.bytes > MAXIMUM_ATTEMPT_OUTPUT_BYTES))
      && (!after.Exceeded() ==> after.Total() == ledger.Total() + output.bytes)
  {
    if output.Archived? {
      var (charge, stored) := ChargeArchived(ledger.active, Sum(ledger.archived), output.bytes);
      SumAppend(ledger.archived, [stored]);
      assert Sum([stored]) == stored;
    }
  }

  // Overflow is sticky: no later charge is accepted and the ledger stays as it is.
  lemma {:induction false} OverflowIsSticky(earlier: seq<ValidOutput>, later: seq<ValidOutput>)
    requires Charged(earlier).ledger.Exceeded()
    ensures Charged(earlier + later) == Charged(earlier)
  {
    if later == [] {
      assert earlier + later == earlier;
    } else {
      var shorter := later[..|later| - 1];
      OverflowIsSticky(earlier, shorter);
      assert (earlier + later)[..|earlier + later| - 1] == earlier + shorter;
      ApplyEffect(Charged(earlier).ledger, later[|later| - 1]);
    }
  }

  // The attempt row and its archive, as the two Go functions update them.
  class AttemptOutput {
    var outputBytes: nat
    var lateBytes: seq<nat>

    function View(): Ledger
      reads this
    {
      Ledger(outputBytes, lateBytes)
    }

    constructor ()
      ensures View() == OPENED.ledger
    {
      outputBytes, lateBytes := 0, [];
    }

    method ChargeAttemptOutput(bytes: nat) returns (charge: Charge)
      requires bytes <= MAXIMUM_ATTEMPT_OUTPUT_BYTES
      modifies this
      ensures (View(), charge) == Apply(old(View()), Live(bytes))
    {
      var archived := SumOf(lateBytes);
      if outputBytes > MAXIMUM_ATTEMPT_OUTPUT_BYTES || archived > MAXIMUM_ATTEMPT_OUTPUT_BYTES
         || outputBytes > MAXIMUM_ATTEMPT_OUTPUT_BYTES - archived {
        return Charge(true, false);
      }
      if bytes > MAXIMUM_ATTEMPT_OUTPUT_BYTES - outputBytes - archived {
        outputBytes := MAXIMUM_ATTEMPT_OUTPUT_BYTES + 1;
        return Charge(true, true);
      }
      if bytes == 0 {
        return Charge(false, false);
      }
      outputBytes := outputBytes + bytes;
      return Charge(false, false);
    }

    method ArchiveOutput(bytes: nat) returns (charge: Charge)
      requires bytes <= MAXIMUM_ATTEMPT_OUTPUT_BYTES
      modifies this
      ensures (View(), charge) == Apply(old(View()), Archived(bytes))
    {
      var archived := SumOf(lateBytes);
      if outputBytes > MAXIMUM_ATTEMPT_OUTPUT_BYTES || archived > MAXIMUM_ATTEMPT_OUTPUT_BYTES
         || outputBytes > MAXIMUM_ATTEMPT_OUTPUT_BYTES - archived {
        return Charge(true, false);
      }
      var current := outputBytes + archived;
      if bytes > MAXIMUM_ATTEMPT_OUTPUT_BYTES - current {
        lateBytes := lateBytes + [MAXIMUM_ATTEMPT_OUTPUT_BYTES + 1 - current];
        return Charge(true, true);
      }
      lateBytes := lateBytes + [bytes];
      return Charge(false, false);
    }

    // COALESCE(SUM(output_bytes),0)
    method SumOf(rows: seq<nat>) returns (total: nat)
      ensures total == Sum(rows)
    {
      total := 0;
      for i := 0 to |rows|
        invariant total == Sum(rows[..i])
      {
        total := total + rows[i];
        assert rows[..i + 1][..i] == rows[..i];
      }
      assert rows[..|rows|] == rows;
    }
  }
}
