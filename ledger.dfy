/** The data of the ProjectAdd component and its five handlers, each as a pure
    step from one ledger state (projects, payments, running total) to the next. */
module Ledger {
  import opened Seqs

  /** A status string other than the two known ones. */
  type OtherLabel = t: string | t != "active" && t != "completed" witness ""

  /** Line 50 treats every status other than 'active' alike, so a status the
      form supplies outside the two known ones is kept as it was given. */
  datatype ProjectStatus = Active | Completed | Unrecognised(text: OtherLabel)

  datatype PaymentStatus = Paid | Unpaid

  datatype Project = Project(id: int, name: string, dueDate: string, status: ProjectStatus, earnings: int)

  datatype Payment = Payment(id: int, amount: int, status: PaymentStatus)

  /** The fields the project form hands to addProject; the id is added by the handler. */
  datatype ProjectInput = ProjectInput(name: string, dueDate: string, status: ProjectStatus, earnings: int)

  /** The three state cells of the component. */
  datatype State = State(projects: seq<Project>, payments: seq<Payment>, totalEarnings: int)

  const InitialProjects: seq<Project> := [
    Project(1, "Project A", "2024-10-15", Active, 20666),
    Project(2, "Project B", "2024-11-20", Completed, 15011)
  ]

  const InitialPayments: seq<Payment> := [
    Payment(1, 20666, Paid),
    Payment(2, 15011, Unpaid)
  ]

  function EarningsOf(p: Project): int { p.earnings }

  function AmountOf(q: Payment): int { q.amount }

  predicate IsPaid(q: Payment) { q.status == Paid }

  /** The keys the handlers look projects and payments up by. */
  function ProjectId(p: Project): int { p.id }

  function PaymentId(q: Payment): int { q.id }

  /** The sum of all project earnings. */
  function ProjectEarnings(ps: seq<Project>): (r: int)
    ensures (forall i :: 0 <= i < |ps| ==> ps[i].earnings >= 0) ==> r >= 0
  {
    Sum(ps, EarningsOf)
  }

  /** The sum of the amounts of the paid payments. */
  function PaidAmount(pays: seq<Payment>): (r: int)
    ensures (forall i :: 0 <= i < |pays| ==> pays[i].status == Unpaid) ==> r == 0
    ensures (forall i :: 0 <= i < |pays| ==> pays[i].amount >= 0) ==> r >= 0
  {
    FilterMembers(pays, IsPaid);
    Sum(Filter(pays, IsPaid), AmountOf)
  }

  /** What the running total is meant to equal: all project earnings plus all paid amounts. */
  function Earned(ps: seq<Project>, pays: seq<Payment>): (r: int)
    ensures (forall i :: 0 <= i < |pays| ==> pays[i].status == Unpaid) ==> r == ProjectEarnings(ps)
  {
    ProjectEarnings(ps) + PaidAmount(pays)
  }

  /** The state the component starts in: the seed lists, and a total computed from them. */
  function Initial(): (r: State)
    ensures r.projects == InitialProjects && r.payments == InitialPayments
    ensures r.totalEarnings == 20666 + 15011 + 20666
  {
    var p0, p1 := InitialProjects[0], InitialProjects[1];
    var q0, q1 := InitialPayments[0], InitialPayments[1];
    assert InitialProjects == [p0] + [p1];
    assert InitialPayments == [q0] + [q1];
    SumCons(p0, [p1], EarningsOf);
    SumCons(p1, [], EarningsOf);
    FilterCons(q0, [q1], IsPaid);
    FilterCons(q1, [], IsPaid);
    assert [q0] + [] == [q0];
    SumCons(q0, [], AmountOf);
    State(InitialProjects, InitialPayments, Earned(InitialProjects, InitialPayments))
  }

  /** The running total agrees with its defining formula. */
  predicate Balanced(s: State)
  {
    s.totalEarnings == Earned(s.projects, s.payments)
  }

  /** The intended invariant of the component. */
  predicate Consistent(s: State)
  {
    UniqueKeys(s.projects, ProjectId) && UniqueKeys(s.payments, PaymentId) && Balanced(s)
  }

  function Toggled(st: ProjectStatus): ProjectStatus
  {
    if st == Active then Completed else Active
  }

  function ToggleIfId(id: int): Project -> Project
  {
    (p: Project) => if p.id == id then p.(status := Toggled(p.status)) else p
  }

  function PayIfId(id: int): Payment -> Payment
  {
    (q: Payment) => if q.id == id then q.(status := Paid) else q
  }

  /** addProject: append the new project and a matching unpaid payment, and add the earnings. */
  function AddProject(s: State, input: ProjectInput, projectId: int, paymentId: int): (r: State)
    ensures |r.projects| == |s.projects| + 1 && r.projects[..|s.projects|] == s.projects
    ensures |r.payments| == |s.payments| + 1 && r.payments[..|s.payments|] == s.payments
    ensures r.payments[|s.payments|].status == Unpaid
    ensures r.totalEarnings - s.totalEarnings == r.projects[|s.projects|].earnings == r.payments[|s.payments|].amount
  {
    State(s.projects + [Project(projectId, input.name, input.dueDate, input.status, input.earnings)],
          s.payments + [Payment(paymentId, input.earnings, Unpaid)],
          s.totalEarnings + input.earnings)
  }

  /** deleteProject: if some project has the id, drop every project with it
      and subtract the earnings of the first one. */
  function DeleteProject(s: State, id: int): (r: State)
    ensures r.payments == s.payments && |r.projects| <= |s.projects|
    ensures KeyFree(r.projects, ProjectId, id)
    ensures r == s <==> KeyFree(s.projects, ProjectId, id)
  {
    match Find(s.projects, HasKey(ProjectId, id))
    case None => s
    case Some(p) => s.(projects := Filter(s.projects, LacksKey(ProjectId, id)),
                       totalEarnings := s.totalEarnings - p.earnings)
  }

  /** toggleProjectStatus: flip the status of every project with the id. */
  function ToggleProjectStatus(s: State, id: int): (r: State)
    ensures r.payments == s.payments && r.totalEarnings == s.totalEarnings
    ensures |r.projects| == |s.projects|
    ensures forall k :: 0 <= k < |s.projects| ==>
              r.projects[k].id == s.projects[k].id && r.projects[k].earnings == s.projects[k].earnings
    ensures KeyFree(s.projects, ProjectId, id) ==> r == s
  {
    s.(projects := Map(s.projects, ToggleIfId(id)))
  }

  /** markPaymentAsPaid: if the first payment with the id is not yet paid,
      mark every payment with the id paid and add the first one's amount. */
  function MarkPaymentAsPaid(s: State, id: int): (r: State)
    ensures r.projects == s.projects && |r.payments| == |s.payments|
    ensures forall k :: 0 <= k < |s.payments| ==>
              r.payments[k].id == s.payments[k].id && r.payments[k].amount == s.payments[k].amount
    ensures r != s ==> forall k :: 0 <= k < |r.payments| && r.payments[k].id == id ==> r.payments[k].status == Paid
    ensures KeyFree(s.payments, PaymentId, id) ==> r == s
  {
    match Find(s.payments, HasKey(PaymentId, id))
    case None => s
    case Some(q) =>
      if q.status == Paid then s
      else s.(payments := Map(s.payments, PayIfId(id)),
              totalEarnings := s.totalEarnings + q.amount)
  }

  /** deletePayment as written: drop every payment with the id and subtract the
      first one's amount, whether or not that amount was ever added. */
  function DeletePayment(s: State, id: int): (r: State)
    ensures r.projects == s.projects && |r.payments| <= |s.payments|
    ensures KeyFree(r.payments, PaymentId, id)
    ensures r == s <==> KeyFree(s.payments, PaymentId, id)
  {
    match Find(s.payments, HasKey(PaymentId, id))
    case None => s
    case Some(q) => s.(payments := Filter(s.payments, LacksKey(PaymentId, id)),
                       totalEarnings := s.totalEarnings - q.amount)
  }

  /** deletePayment as evidently intended: subtract the amount only when it was counted, that is when paid. */
  function DeletePaymentCorrected(s: State, id: int): (r: State)
    ensures r.projects == s.projects && r.payments == DeletePayment(s, id).payments
    ensures r.totalEarnings != DeletePayment(s, id).totalEarnings ==>
              exists q :: q in s.payments && q.id == id && q.status == Unpaid
  {
    match Find(s.payments, HasKey(PaymentId, id))
    case None => s
    case Some(q) =>
      assert HasKey(PaymentId, id)(q) && PaymentId(q) == q.id;
      assert q.status == Unpaid ==> exists q' :: q' in s.payments && q'.id == id && q'.status == Unpaid;
      s.(payments := Filter(s.payments, LacksKey(PaymentId, id)),
                       totalEarnings := if q.status == Paid then s.totalEarnings - q.amount
                                        else s.totalEarnings)
  }

  /** A user action on the component, with the ids addProject would draw. */
  datatype Action =
    | AddProjectAction(input: ProjectInput, projectId: int, paymentId: int)
    | DeleteProjectAction(id: int)
    | ToggleProjectStatusAction(id: int)
    | MarkPaymentAsPaidAction(id: int)
    | DeletePaymentAction(id: int)

  /** One handler call; `corrected` selects the corrected deletePayment. */
  function Step(s: State, a: Action, corrected: bool): State
  {
    match a
    case AddProjectAction(input, pid, qid) => AddProject(s, input, pid, qid)
    case DeleteProjectAction(id) => DeleteProject(s, id)
    case ToggleProjectStatusAction(id) => ToggleProjectStatus(s, id)
    case MarkPaymentAsPaidAction(id) => MarkPaymentAsPaid(s, id)
    case DeletePaymentAction(id) => if corrected then DeletePaymentCorrected(s, id) else DeletePayment(s, id)
  }

  /** The handler calls one after another, each on the state the previous one left. */
  function Run(s: State, acts: seq<Action>, corrected: bool): State
    decreases |acts|
  {
    if acts == [] then s else Run(Step(s, acts[0], corrected), acts[1..], corrected)
  }

  /** The ids an addProject action draws are not in use in the state it runs on. */
  predicate FreshFor(s: State, a: Action)
  {
    a.AddProjectAction? ==> KeyFree(s.projects, ProjectId, a.projectId) && KeyFree(s.payments, PaymentId, a.paymentId)
  }

  /** Every addProject in the run draws ids not in use at that point. */
  predicate FreshIdsThroughout(s: State, acts: seq<Action>, corrected: bool)
    decreases |acts|
  {
    acts == [] || (FreshFor(s, acts[0]) && FreshIdsThroughout(Step(s, acts[0], corrected), acts[1..], corrected))
  }
}
