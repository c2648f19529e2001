/** What each handler of the ProjectAdd component does to the ledger, and
    whether the running total keeps agreeing with its defining formula. */
module LedgerProperties {
  import opened Seqs
  import opened Ledger

  // ---------------------------------------------------------------------
  // Facts about the two sums
  // ---------------------------------------------------------------------

  /** How much one payment contributes to the paid amount. */
  function Counted(q: Payment): int { if q.status == Paid then q.amount else 0 }

  lemma PaidAmountAppend(a: seq<Payment>, b: seq<Payment>)
    ensures PaidAmount(a + b) == PaidAmount(a) + PaidAmount(b)
  {
    FilterAppend(a, b, IsPaid);
    SumAppend(Filter(a, IsPaid), Filter(b, IsPaid), AmountOf);
  }

  lemma PaidAmountOne(q: Payment)
    ensures PaidAmount([q]) == Counted(q)
  {
    FilterCons(q, [], IsPaid);
    assert [q] + [] == [q];
    SumCons(q, [], AmountOf);
  }

  /** Removing the payment at `i` takes away exactly what it contributed. */
  lemma PaidAmountRemoveAt(pays: seq<Payment>, i: int)
    requires 0 <= i < |pays|
    ensures PaidAmount(pays[..i] + pays[i + 1..]) == PaidAmount(pays) - Counted(pays[i])
  {
    assert pays == pays[..i] + ([pays[i]] + pays[i + 1..]);
    PaidAmountAppend(pays[..i], [pays[i]] + pays[i + 1..]);
    PaidAmountAppend([pays[i]], pays[i + 1..]);
    PaidAmountAppend(pays[..i], pays[i + 1..]);
    PaidAmountOne(pays[i]);
  }

  /** Replacing the payment at `i` swaps its contribution for the new one's. */
  lemma PaidAmountReplaceAt(pays: seq<Payment>, i: int, q: Payment)
    requires 0 <= i < |pays|
    ensures PaidAmount(pays[i := q]) == PaidAmount(pays) - Counted(pays[i]) + Counted(q)
  {
    assert pays[i := q] == pays[..i] + ([q] + pays[i + 1..]);
    PaidAmountAppend(pays[..i], [q] + pays[i + 1..]);
    PaidAmountAppend([q], pays[i + 1..]);
    PaidAmountOne(q);
    PaidAmountRemoveAt(pays, i);
    PaidAmountAppend(pays[..i], pays[i + 1..]);
  }

  /** Removing the project at `i` takes away exactly its earnings. */
  lemma ProjectEarningsRemoveAt(ps: seq<Project>, i: int)
    requires 0 <= i < |ps|
    ensures ProjectEarnings(ps[..i] + ps[i + 1..]) == ProjectEarnings(ps) - ps[i].earnings
  {
    assert ps == ps[..i] + ([ps[i]] + ps[i + 1..]);
    SumAppend(ps[..i], [ps[i]] + ps[i + 1..], EarningsOf);
    SumCons(ps[i], ps[i + 1..], EarningsOf);
    SumAppend(ps[..i], ps[i + 1..], EarningsOf);
  }

  // ---------------------------------------------------------------------
  // The initial state (lines 8-27)
  // ---------------------------------------------------------------------

  /** The seed total is 20666 + 15011 from the projects plus 20666 from the one paid payment,
      and the seed state satisfies the invariant. */
  lemma InitialState()
    ensures Initial().totalEarnings == 20666 + 15011 + 20666
    ensures Consistent(Initial())
  {
    var p0, p1 := InitialProjects[0], InitialProjects[1];
    assert InitialProjects == [p0] + [p1];
    SumCons(p0, [p1], EarningsOf);
    SumCons(p1, [], EarningsOf);
    var q0, q1 := InitialPayments[0], InitialPayments[1];
    assert InitialPayments == [q0] + [q1];
    PaidAmountAppend([q0], [q1]);
    PaidAmountOne(q0);
    PaidAmountOne(q1);
  }

  // ---------------------------------------------------------------------
  // addProject (lines 29-35)
  // ---------------------------------------------------------------------

  /** addProject appends one project carrying the new id and the given fields, and one unpaid
      payment of the same earnings; everything already there stays, in order; the total rises
      by the earnings. */
  lemma AddProjectAppends(s: State, input: ProjectInput, projectId: int, paymentId: int)
    ensures var r := AddProject(s, input, projectId, paymentId);
      && |r.projects| == |s.projects| + 1 && r.projects[..|s.projects|] == s.projects
      && r.projects[|s.projects|] == Project(projectId, input.name, input.dueDate, input.status, input.earnings)
      && |r.payments| == |s.payments| + 1 && r.payments[..|s.payments|] == s.payments
      && r.payments[|s.payments|] == Payment(paymentId, input.earnings, Unpaid)
      && r.totalEarnings == s.totalEarnings + input.earnings
  {
  }

  /** addProject keeps the total balanced: the earnings it adds are exactly those of the new
      project, and the new payment is unpaid. */
  lemma AddProjectKeepsBalance(s: State, input: ProjectInput, projectId: int, paymentId: int)
    requires Balanced(s)
    ensures Balanced(AddProject(s, input, projectId, paymentId))
  {
    var p := Project(projectId, input.name, input.dueDate, input.status, input.earnings);
    var q := Payment(paymentId, input.earnings, Unpaid);
    SumAppend(s.projects, [p], EarningsOf);
    SumCons(p, [], EarningsOf);
    PaidAmountAppend(s.payments, [q]);
    PaidAmountOne(q);
  }

  /** Ids stay unique through addProject exactly when the ids it draws are not yet in use. */
  lemma AddProjectUniqueIdsIff(s: State, input: ProjectInput, projectId: int, paymentId: int)
    requires UniqueKeys(s.projects, ProjectId) && UniqueKeys(s.payments, PaymentId)
    ensures var r := AddProject(s, input, projectId, paymentId);
      && (UniqueKeys(r.projects, ProjectId) <==> KeyFree(s.projects, ProjectId, projectId))
      && (UniqueKeys(r.payments, PaymentId) <==> KeyFree(s.payments, PaymentId, paymentId))
  {
    var r := AddProject(s, input, projectId, paymentId);
    var n, m := |s.projects|, |s.payments|;
    if !KeyFree(s.projects, ProjectId, projectId) {
      var k :| 0 <= k < n && s.projects[k].id == projectId;
      assert r.projects[k].id == r.projects[n].id;
    }
    if !KeyFree(s.payments, PaymentId, paymentId) {
      var k :| 0 <= k < m && s.payments[k].id == paymentId;
      assert r.payments[k].id == r.payments[m].id;
    }
  }

  lemma AddProjectKeepsConsistent(s: State, input: ProjectInput, projectId: int, paymentId: int)
    requires Consistent(s)
    requires KeyFree(s.projects, ProjectId, projectId) && KeyFree(s.payments, PaymentId, paymentId)
    ensures Consistent(AddProject(s, input, projectId, paymentId))
  {
    AddProjectKeepsBalance(s, input, projectId, paymentId);
    AddProjectUniqueIdsIff(s, input, projectId, paymentId);
  }

  // ---------------------------------------------------------------------
  // deleteProject (lines 38-45)
  // ---------------------------------------------------------------------

  /** deleteProject with an id no project has changes nothing. */
  lemma DeleteProjectAbsent(s: State, id: int)
    requires KeyFree(s.projects, ProjectId, id)
    ensures DeleteProject(s, id) == s
  {
  }

  /** When the first project with the id is at `i`: every project with the id goes, every other
      project stays, the total drops by the earnings at `i`, and the payments are untouched. */
  lemma DeleteProjectPresent(s: State, id: int, i: int)
    requires 0 <= i < |s.projects| && s.projects[i].id == id
    requires forall j :: 0 <= j < i ==> s.projects[j].id != id
    ensures var r := DeleteProject(s, id);
      && (forall p :: p in r.projects <==> p in s.projects && p.id != id)
      && |r.projects| < |s.projects|
      && r.totalEarnings == s.totalEarnings - s.projects[i].earnings
      && r.payments == s.payments
  {
    forall j | 0 <= j <= i ensures HasKey(ProjectId, id)(s.projects[j]) == (s.projects[j].id == id) {
      assert ProjectId(s.projects[j]) == s.projects[j].id;
    }
    FindFirst(s.projects, HasKey(ProjectId, id), i);
    FilterMembers(s.projects, LacksKey(ProjectId, id));
    forall p: Project ensures LacksKey(ProjectId, id)(p) == (p.id != id) {
      assert ProjectId(p) == p.id;
    }
    FilterShrinks(s.projects, LacksKey(ProjectId, id), i);
  }

  /** With unique ids, deleteProject removes exactly the one project with the id and keeps
      the others in their order. */
  lemma DeleteProjectRemovesOne(s: State, id: int, i: int)
    requires UniqueKeys(s.projects, ProjectId)
    requires 0 <= i < |s.projects| && s.projects[i].id == id
    ensures var r := DeleteProject(s, id);
      && r.projects == s.projects[..i] + s.projects[i + 1..]
      && r.totalEarnings == s.totalEarnings - s.projects[i].earnings
      && r.payments == s.payments
  {
    FindFirst(s.projects, HasKey(ProjectId, id), i);
    FilterRemovesAt(s.projects, LacksKey(ProjectId, id), i);
  }

  lemma DeleteProjectKeepsConsistent(s: State, id: int)
    requires Consistent(s)
    ensures Consistent(DeleteProject(s, id))
  {
    if !KeyFree(s.projects, ProjectId, id) {
      var i :| 0 <= i < |s.projects| && s.projects[i].id == id;
      DeleteProjectRemovesOne(s, id, i);
      ProjectEarningsRemoveAt(s.projects, i);
      UniqueKeysRemoveAt(s.projects, ProjectId, i);
    }
  }

  /** Without unique ids the total drifts: two projects share id 7, deleteProject removes both
      but subtracts the earnings of the first only. */
  lemma DuplicateProjectIdsBreakBalance()
    ensures var s := State([Project(7, "A", "2025-01-01", Active, 10), Project(7, "B", "2025-01-01", Active, 5)], [], 15);
      && Balanced(s)
      && DeleteProject(s, 7).projects == []
      && DeleteProject(s, 7).totalEarnings == 5
      && !Balanced(DeleteProject(s, 7))
  {
    var a, b := Project(7, "A", "2025-01-01", Active, 10), Project(7, "B", "2025-01-01", Active, 5);
    SumCons(a, [b], EarningsOf);
    SumCons(b, [], EarningsOf);
    assert [a, b] == [a] + [b];
    assert HasKey(ProjectId, 7)(a) by { assert ProjectId(a) == a.id; }
    FindFirst([a, b], HasKey(ProjectId, 7), 0);
    FilterCons(a, [b], LacksKey(ProjectId, 7));
    FilterCons(b, [], LacksKey(ProjectId, 7));
  }

  // ---------------------------------------------------------------------
  // toggleProjectStatus (lines 47-57)
  // ---------------------------------------------------------------------

  /** toggleProjectStatus flips the status of each project with the id, active to completed and
      anything else to active; every other project and every other field is unchanged, and the
      payments and the total are untouched. */
  lemma ToggleProjectStatusEffect(s: State, id: int)
    ensures var r := ToggleProjectStatus(s, id);
      && |r.projects| == |s.projects|
      && (forall k :: 0 <= k < |s.projects| ==>
            var p, p' := s.projects[k], r.projects[k];
            p'.id == p.id && p'.name == p.name && p'.dueDate == p.dueDate && p'.earnings == p.earnings
            && p'.status == (if p.id != id then p.status else if p.status == Active then Completed else Active))
      && r.payments == s.payments && r.totalEarnings == s.totalEarnings
  {
  }

  /** Toggling twice restores the projects exactly when every project with the id had one of
      the two known statuses. */
  lemma ToggleTwiceIff(s: State, id: int)
    ensures ToggleProjectStatus(ToggleProjectStatus(s, id), id) == s <==>
            forall k :: 0 <= k < |s.projects| && s.projects[k].id == id ==> !s.projects[k].status.Unrecognised?
  {
    if forall k :: 0 <= k < |s.projects| && s.projects[k].id == id ==> !s.projects[k].status.Unrecognised? {
      ToggleTwiceRestores(s, id);
    } else {
      var k :| 0 <= k < |s.projects| && s.projects[k].id == id && s.projects[k].status.Unrecognised?;
      ToggleTwiceLosesStatus(s, id, k);
    }
  }

  lemma ToggleTwiceRestores(s: State, id: int)
    requires forall k :: 0 <= k < |s.projects| && s.projects[k].id == id ==> !s.projects[k].status.Unrecognised?
    ensures ToggleProjectStatus(ToggleProjectStatus(s, id), id) == s
  {
    var flip := ToggleIfId(id);
    var r := Map(Map(s.projects, flip), flip);
    forall k | 0 <= k < |s.projects| ensures r[k] == s.projects[k] {
      assert r[k] == flip(flip(s.projects[k]));
    }
    assert r == s.projects;
  }

  lemma ToggleTwiceLosesStatus(s: State, id: int, k: int)
    requires 0 <= k < |s.projects| && s.projects[k].id == id && s.projects[k].status.Unrecognised?
    ensures ToggleProjectStatus(ToggleProjectStatus(s, id), id).projects[k].status == Completed
  {
    var flip := ToggleIfId(id);
    var r := Map(Map(s.projects, flip), flip);
    assert r[k] == flip(flip(s.projects[k]));
  }

  lemma ToggleKeepsConsistent(s: State, id: int)
    requires Consistent(s)
    ensures Consistent(ToggleProjectStatus(s, id))
  {
    SumMapUnchanged(s.projects, ToggleIfId(id), EarningsOf);
  }

  // ---------------------------------------------------------------------
  // markPaymentAsPaid (lines 59-70)
  // ---------------------------------------------------------------------

  /** markPaymentAsPaid with an id no payment has changes nothing. */
  lemma MarkPaymentAsPaidAbsent(s: State, id: int)
    requires KeyFree(s.payments, PaymentId, id)
    ensures MarkPaymentAsPaid(s, id) == s
  {
  }

  /** When the first payment with the id is at `i`: nothing changes if it is already paid;
      otherwise every payment with the id becomes paid, the others stay as they were, and the
      total rises by the amount at `i`. */
  lemma MarkPaymentAsPaidAt(s: State, id: int, i: int)
    requires 0 <= i < |s.payments| && s.payments[i].id == id
    requires forall j :: 0 <= j < i ==> s.payments[j].id != id
    ensures var r := MarkPaymentAsPaid(s, id);
      if s.payments[i].status == Paid then r == s
      else
        && |r.payments| == |s.payments|
        && (forall k :: 0 <= k < |s.payments| ==>
              r.payments[k] == if s.payments[k].id == id then s.payments[k].(status := Paid) else s.payments[k])
        && r.totalEarnings == s.totalEarnings + s.payments[i].amount
        && r.projects == s.projects
  {
    forall j | 0 <= j <= i ensures HasKey(PaymentId, id)(s.payments[j]) == (s.payments[j].id == id) {
      assert PaymentId(s.payments[j]) == s.payments[j].id;
    }
    FindFirst(s.payments, HasKey(PaymentId, id), i);
  }

  /** Marking a payment paid a second time changes nothing. */
  lemma MarkPaymentAsPaidIdempotent(s: State, id: int)
    ensures MarkPaymentAsPaid(MarkPaymentAsPaid(s, id), id) == MarkPaymentAsPaid(s, id)
  {
    var once := MarkPaymentAsPaid(s, id);
    if once != s {
      var f := Find(once.payments, HasKey(PaymentId, id));
      assert f.Some? by {
        var i := FindIndex(s.payments, HasKey(PaymentId, id));
        assert !HasKey(PaymentId, id)(once.payments[i]) ==> false;
      }
      var k :| 0 <= k < |once.payments| && once.payments[k] == f.value;
      assert f.value.status == Paid;
    }
  }

  lemma MarkPaymentAsPaidKeepsConsistent(s: State, id: int)
    requires Consistent(s)
    ensures Consistent(MarkPaymentAsPaid(s, id))
  {
    if !KeyFree(s.payments, PaymentId, id) {
      var i :| 0 <= i < |s.payments| && s.payments[i].id == id;
      MarkPaymentAsPaidAt(s, id, i);
      var r := MarkPaymentAsPaid(s, id);
      if s.payments[i].status != Paid {
        var q := s.payments[i].(status := Paid);
        forall k | 0 <= k < |s.payments| ensures r.payments[k] == s.payments[i := q][k] {
          if k != i {
            assert s.payments[k].id != s.payments[i].id;
          }
        }
        assert r.payments == s.payments[i := q];
        PaidAmountReplaceAt(s.payments, i, q);
      }
    }
  }

  // ---------------------------------------------------------------------
  // deletePayment (lines 72-79)
  // ---------------------------------------------------------------------

  /** deletePayment with an id no payment has changes nothing. */
  lemma DeletePaymentAbsent(s: State, id: int)
    requires KeyFree(s.payments, PaymentId, id)
    ensures DeletePayment(s, id) == s
  {
  }

  /** When the first payment with the id is at `i`: every payment with the id goes, every other
      payment stays, the total drops by the amount at `i` whatever its status, and the projects
      are untouched. */
  lemma DeletePaymentPresent(s: State, id: int, i: int)
    requires 0 <= i < |s.payments| && s.payments[i].id == id
    requires forall j :: 0 <= j < i ==> s.payments[j].id != id
    ensures var r := DeletePayment(s, id);
      && (forall q :: q in r.payments <==> q in s.payments && q.id != id)
      && |r.payments| < |s.payments|
      && r.totalEarnings == s.totalEarnings - s.payments[i].amount
      && r.projects == s.projects
  {
    forall j | 0 <= j <= i ensures HasKey(PaymentId, id)(s.payments[j]) == (s.payments[j].id == id) {
      assert PaymentId(s.payments[j]) == s.payments[j].id;
    }
    FindFirst(s.payments, HasKey(PaymentId, id), i);
    FilterMembers(s.payments, LacksKey(PaymentId, id));
    forall q: Payment ensures LacksKey(PaymentId, id)(q) == (q.id != id) {
      assert PaymentId(q) == q.id;
    }
    FilterShrinks(s.payments, LacksKey(PaymentId, id), i);
  }

  /** With unique ids, deletePayment removes exactly the one payment with the id, keeps the
      others in order, and lowers the total by its amount whatever its status. */
  lemma DeletePaymentRemovesOne(s: State, id: int, i: int)
    requires UniqueKeys(s.payments, PaymentId)
    requires 0 <= i < |s.payments| && s.payments[i].id == id
    ensures var r := DeletePayment(s, id);
      && r.payments == s.payments[..i] + s.payments[i + 1..]
      && r.totalEarnings == s.totalEarnings - s.payments[i].amount
      && r.projects == s.projects
  {
    FindFirst(s.payments, HasKey(PaymentId, id), i);
    FilterRemovesAt(s.payments, LacksKey(PaymentId, id), i);
  }

  /** After deletePayment on a consistent state, the total falls short of its formula by the
      deleted amount when that payment was unpaid, and matches it when it was paid. */
  lemma DeletePaymentDrift(s: State, id: int, i: int)
    requires Consistent(s)
    requires 0 <= i < |s.payments| && s.payments[i].id == id
    ensures var r := DeletePayment(s, id);
      && UniqueKeys(r.projects, ProjectId) && UniqueKeys(r.payments, PaymentId)
      && r.totalEarnings == Earned(r.projects, r.payments)
                            - (if s.payments[i].status == Unpaid then s.payments[i].amount else 0)
  {
    DeletePaymentRemovesOne(s, id, i);
    PaidAmountRemoveAt(s.payments, i);
    UniqueKeysRemoveAt(s.payments, PaymentId, i);
  }

  /** Deleting a payment keeps a consistent state consistent exactly when the payment is
      absent, paid, or of amount zero. */
  lemma DeletePaymentKeepsConsistentIff(s: State, id: int)
    requires Consistent(s)
    ensures Consistent(DeletePayment(s, id)) <==>
            forall i :: 0 <= i < |s.payments| && s.payments[i].id == id ==>
              s.payments[i].status == Paid || s.payments[i].amount == 0
  {
    if !KeyFree(s.payments, PaymentId, id) {
      var i :| 0 <= i < |s.payments| && s.payments[i].id == id;
      DeletePaymentDrift(s, id, i);
    }
  }

  /** On the seed state, deleting the unpaid payment 2 leaves a total of 41332 although the
      formula still gives 56343: its 15011 was subtracted without ever having been added. */
  lemma SeedDeleteUnpaidPayment()
    ensures var r := DeletePayment(Initial(), 2);
      && Consistent(Initial())
      && r.totalEarnings == 41332
      && Earned(r.projects, r.payments) == 56343
  {
    InitialState();
    DeletePaymentDrift(Initial(), 2, 1);
  }

  // ---------------------------------------------------------------------
  // deletePayment as evidently intended
  // ---------------------------------------------------------------------

  /** The corrected deletePayment removes the same payments and keeps every consistent state
      consistent. */
  lemma DeletePaymentCorrectedKeepsConsistent(s: State, id: int)
    requires Consistent(s)
    ensures DeletePaymentCorrected(s, id).payments == DeletePayment(s, id).payments
    ensures Consistent(DeletePaymentCorrected(s, id))
  {
    if !KeyFree(s.payments, PaymentId, id) {
      var i :| 0 <= i < |s.payments| && s.payments[i].id == id;
      DeletePaymentDrift(s, id, i);
      FindFirst(s.payments, HasKey(PaymentId, id), i);
    }
  }

  // ---------------------------------------------------------------------
  // Whole runs of handler calls
  // ---------------------------------------------------------------------

  /** With the corrected deletePayment, every handler keeps a consistent state consistent,
      provided addProject draws ids not in use. */
  lemma StepKeepsConsistent(s: State, a: Action)
    requires Consistent(s) && FreshFor(s, a)
    ensures Consistent(Step(s, a, true))
  {
    match a
    case AddProjectAction(input, pid, qid) => AddProjectKeepsConsistent(s, input, pid, qid);
    case DeleteProjectAction(id) => DeleteProjectKeepsConsistent(s, id);
    case ToggleProjectStatusAction(id) => ToggleKeepsConsistent(s, id);
    case MarkPaymentAsPaidAction(id) => MarkPaymentAsPaidKeepsConsistent(s, id);
    case DeletePaymentAction(id) => DeletePaymentCorrectedKeepsConsistent(s, id);
  }

  /** Any run of handler calls from a consistent state, with fresh ids for every addProject,
      ends in a consistent state, when deletePayment is the corrected one. */
  lemma {:induction false} RunKeepsConsistent(s: State, acts: seq<Action>)
    requires Consistent(s) && FreshIdsThroughout(s, acts, true)
    ensures Consistent(Run(s, acts, true))
    decreases |acts|
  {
    if acts != [] {
      StepKeepsConsistent(s, acts[0]);
      RunKeepsConsistent(Step(s, acts[0], true), acts[1..]);
    }
  }

  /** As written, the one-call run "delete payment 2" from the seed state already ends unbalanced. */
  lemma RunAsWrittenBreaksBalance()
    ensures FreshIdsThroughout(Initial(), [DeletePaymentAction(2)], false)
    ensures !Balanced(Run(Initial(), [DeletePaymentAction(2)], false))
  {
    var s, acts := Initial(), [DeletePaymentAction(2)];
    var r := DeletePayment(s, 2);
    SeedDeleteUnpaidPayment();
    assert acts[1..] == [];
    assert Step(s, acts[0], false) == r;
    assert Run(s, acts, false) == Run(r, [], false) == r;
    assert FreshIdsThroughout(r, [], false);
  }
}
