/** The ProjectAdd component: three state cells that its five handlers overwrite. */
module ProjectAddComponent {
  import opened Seqs
  import opened Ledger
  import LedgerProperties

  class ProjectAdd {
    var projects: seq<Project>
    var payments: seq<Payment>
    var totalEarnings: int

    /** The three cells as one ledger value. */
    function Snapshot(): State
      reads this
    {
      State(projects, payments, totalEarnings)
    }

    /** The component starts from the seed lists, with the total computed from them. */
    constructor ()
      ensures projects == InitialProjects && payments == InitialPayments
      ensures totalEarnings == 20666 + 15011 + 20666
      ensures Consistent(Snapshot())
    {
      projects := InitialProjects;
      payments := InitialPayments;
      totalEarnings := ProjectEarnings(InitialProjects) + PaidAmount(InitialPayments);
      LedgerProperties.InitialState();
    }

    /** addProject; the caller supplies the two ids the handler would draw from the clock. */
    method AddProject(input: ProjectInput, projectId: int, paymentId: int) returns (notified: bool)
      modifies this
      ensures Snapshot() == Ledger.AddProject(old(Snapshot()), input, projectId, paymentId)
      ensures notified
      ensures (old(Consistent(Snapshot())) && KeyFree(old(projects), ProjectId, projectId)
               && KeyFree(old(payments), PaymentId, paymentId)) ==> Consistent(Snapshot())
    {
      ghost var before := Snapshot();
      var newProject := Project(projectId, input.name, input.dueDate, input.status, input.earnings);
      projects := projects + [newProject];
      totalEarnings := totalEarnings + input.earnings;
      payments := payments + [Payment(paymentId, input.earnings, Unpaid)];
      notified := true;
      if Consistent(before) && KeyFree(before.projects, ProjectId, projectId) && KeyFree(before.payments, PaymentId, paymentId) {
        LedgerProperties.AddProjectKeepsConsistent(before, input, projectId, paymentId);
      }
    }

    /** deleteProject; reports whether a project with the id was found (and a notice shown). */
    method DeleteProject(id: int) returns (notified: bool)
      modifies this
      ensures Snapshot() == Ledger.DeleteProject(old(Snapshot()), id)
      ensures notified <==> !KeyFree(old(projects), ProjectId, id)
      ensures old(Consistent(Snapshot())) ==> Consistent(Snapshot())
    {
      ghost var before := Snapshot();
      var projectToDelete := Find(projects, HasKey(ProjectId, id));
      notified := projectToDelete.Some?;
      if projectToDelete.Some? {
        projects := Filter(projects, LacksKey(ProjectId, id));
        totalEarnings := totalEarnings - projectToDelete.value.earnings;
      }
      if Consistent(before) {
        LedgerProperties.DeleteProjectKeepsConsistent(before, id);
      }
    }

    /** toggleProjectStatus; returns how many notices the handler shows, one per matching project. */
    method ToggleProjectStatus(id: int) returns (notices: nat)
      modifies this
      ensures Snapshot() == Ledger.ToggleProjectStatus(old(Snapshot()), id)
      ensures notices == |Filter(old(projects), HasKey(ProjectId, id))|
      ensures old(Consistent(Snapshot())) ==> Consistent(Snapshot())
    {
      ghost var before := Snapshot();
      notices := |Filter(projects, HasKey(ProjectId, id))|;
      projects := Map(projects, ToggleIfId(id));
      if Consistent(before) {
        LedgerProperties.ToggleKeepsConsistent(before, id);
      }
    }

    /** markPaymentAsPaid; reports whether the first payment with the id was unpaid (and a notice shown). */
    method MarkPaymentAsPaid(id: int) returns (notified: bool)
      modifies this
      ensures Snapshot() == Ledger.MarkPaymentAsPaid(old(Snapshot()), id)
      ensures notified <==> Find(old(payments), HasKey(PaymentId, id)).Some?
                            && Find(old(payments), HasKey(PaymentId, id)).value.status == Unpaid
      ensures old(Consistent(Snapshot())) ==> Consistent(Snapshot())
    {
      ghost var before := Snapshot();
      var paymentToUpdate := Find(payments, HasKey(PaymentId, id));
      notified := paymentToUpdate.Some? && paymentToUpdate.value.status != Paid;
      if notified {
        payments := Map(payments, PayIfId(id));
        totalEarnings := totalEarnings + paymentToUpdate.value.amount;
      }
      if Consistent(before) {
        LedgerProperties.MarkPaymentAsPaidKeepsConsistent(before, id);
      }
    }

    /** deletePayment as written; reports whether a payment with the id was found (and a notice shown).
        The invariant survives only when no payment with the id is unpaid with a non-zero amount. */
    method DeletePayment(id: int) returns (notified: bool)
      modifies this
      ensures Snapshot() == Ledger.DeletePayment(old(Snapshot()), id)
      ensures notified <==> !KeyFree(old(payments), PaymentId, id)
      ensures old(Consistent(Snapshot())) ==>
                (Consistent(Snapshot()) <==>
                 forall i :: 0 <= i < |old(payments)| && old(payments)[i].id == id ==>
                   old(payments)[i].status == Paid || old(payments)[i].amount == 0)
    {
      ghost var before := Snapshot();
      var paymentToDelete := Find(payments, HasKey(PaymentId, id));
      notified := paymentToDelete.Some?;
      if paymentToDelete.Some? {
        payments := Filter(payments, LacksKey(PaymentId, id));
        totalEarnings := totalEarnings - paymentToDelete.value.amount;
      }
      if Consistent(before) {
        LedgerProperties.DeletePaymentKeepsConsistentIff(before, id);
      }
    }
  }
}
