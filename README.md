# ProjectAdd ledger, modelled in Dafny

The `ProjectAdd` component keeps a small ledger in memory:

- a list of projects (`id`, `name`, `dueDate`, `status`, `earnings`);
- a list of payments (`id`, `amount`, `status` paid or unpaid);
- a running counter `totalEarnings`.

It starts from two seed projects and two seed payments. The counter starts as the sum of all project earnings plus the sum of the paid amounts. After that, five handlers change the state. Four of them move the counter by an increment or a decrement, and toggleProjectStatus leaves it alone; none recomputes it:

- addProject
- deleteProject
- toggleProjectStatus
- markPaymentAsPaid
- deletePayment

The question this model answers is whether the counter stays equal to its defining formula. It does for four handlers, provided ids are unique. It does not for deletePayment on an unpaid payment.

Files:

- `seqs.dfy` (module `Seqs`): the JavaScript array operations the handlers use. `Find`, `Filter`, `Map` and `Sum` stand for `find`, `filter`, `map` and `reduce`. The module also holds the facts about them that the proofs need, and the key predicates `UniqueKeys` and `KeyFree` that projects and payments share, each looked up by its `id`.
- `ledger.dfy` (module `Ledger`): the entities, the seed data and the two sums. It has one pure step function per handler on a `State` value (projects, payments, total), plus `Step`/`Run` for sequences of handler calls.
- `ledger_properties.dfy` (module `LedgerProperties`): for each handler, what it does, whether it keeps the invariant, and the counterexamples.
- `project_add.dfy` (module `ProjectAddComponent`): class `ProjectAdd` with the three state cells as fields and one method per handler. Each method overwrites the fields in the handler's order. It states the new state as the step function of the old state, and says when the invariant survives.

The invariant `Consistent` means three things: project ids are unique, payment ids are unique, and `totalEarnings == ProjectEarnings(projects) + PaidAmount(payments)`.

Where the code's behaviour is broader than a one-line description of it, the model follows the code:

- deleteProject and deletePayment use `filter`. They remove every element with the id but subtract the amount of the first match only.
- markPaymentAsPaid uses `map`. It marks every payment with the id, but only the first match decides whether anything happens, and only its amount is added.
- toggleProjectStatus maps `active` to `completed` and every other status to `active`. `ProjectStatus` therefore has a third case, `Unrecognised`, for a status string the form might pass; its text is typed `OtherLabel`, which excludes `"active"` and `"completed"`, so each status string has exactly one representation. Toggling twice restores the list exactly when no matching project has such a status (`ToggleTwiceIff`).
- deleteProject does not remove the linked payment. The formula still holds, because that payment's contribution is unchanged.
- Ids come from `Date.now()` and `Date.now() + 1`, so two projects added in the same millisecond share an id. `DuplicateProjectIdsBreakBalance` shows that the total then drifts on deleteProject. The model therefore takes the ids as parameters, and freshness is a premise of the invariant lemmas, not a precondition of the handlers.

## Model

| member | source | states |
|---|---|---|
| `Seqs.Find` | src/components/Addproject.jsx:39 | Returns None exactly when no element satisfies the predicate; otherwise it returns an element of the list that satisfies it. |
| `Seqs.FindFirst` | src/components/Addproject.jsx:60 | If the predicate first holds at index i, Find returns the element at i. |
| `Seqs.FindIndex` | src/components/Addproject.jsx:73 | When Find succeeds, its result sits at an index where the predicate holds and before which it never holds. |
| `Seqs.Filter` | src/components/Addproject.jsx:41 | The result is no longer than the input, and every element of it satisfies the predicate. |
| `Seqs.FilterMembers` | src/components/Addproject.jsx:75 | An element is in the filtered list exactly when it is in the input and satisfies the predicate. |
| `Seqs.FilterAppend` | src/components/Addproject.jsx:24 | Filtering distributes over concatenation, so the relative order of the kept elements is preserved. |
| `Seqs.FilterRemovesAt` | src/components/Addproject.jsx:41 | A filter that rejects only the element at i returns the list with exactly that element cut out. |
| `Seqs.Map` | src/components/Addproject.jsx:48-55 | The result has the input's length, and element k is f applied to input element k. |
| `Seqs.SumAppend` | src/components/Addproject.jsx:23 | A reduce-sum of a concatenation is the sum of the two reduce-sums. |
| `Seqs.SumMapUnchanged` | src/components/Addproject.jsx:48-56 | A map that keeps the summed field of every element keeps the sum. |
| `Seqs.Sum` | src/components/Addproject.jsx:23-25 | The reduce-sum both seed totals are computed with, and the formula the sum lemmas are stated against. Its contract: a sum of non-negative terms is non-negative. |
| `Ledger.ProjectEarnings` | src/components/Addproject.jsx:23 | The first half of the counter's defining formula, which the invariant lemmas are stated against. Its contract: with non-negative earnings the sum is non-negative. |
| `Ledger.PaidAmount` | src/components/Addproject.jsx:24-25 | The second half of the formula, which the invariant lemmas are stated against. Its contract: it is 0 when no payment is paid, and non-negative when no amount is negative. |
| `Ledger.Earned` | src/components/Addproject.jsx:21-27 | The whole formula the counter should equal, which `Balanced` and every invariant lemma are stated against. Its contract: with no paid payment it is just the project earnings. |
| `Ledger.Initial` | src/components/Addproject.jsx:8-27 | The seed state that the constructor and the seed lemmas are stated against. Its contract: the seed lists, and a total of 20666 + 15011 + 20666. |
| `Ledger.AddProject` | src/components/Addproject.jsx:29-33 | The pure addProject step that the lemmas and the method are stated against. Its contract: one project and one unpaid payment are appended after the old elements, and the total rises by the new project's earnings, which is also the new payment's amount. |
| `Ledger.DeleteProject` | src/components/Addproject.jsx:38-44 | The pure deleteProject step that the lemmas and the method are stated against. Its contract: the payments stay, no project with the id remains, and the state is unchanged if and only if no project had the id. |
| `Ledger.ToggleProjectStatus` | src/components/Addproject.jsx:47-56 | The pure toggle step that the lemmas and the method are stated against. Its contract: the payments and the total stay, every project keeps its place, id and earnings, and an unknown id changes nothing. |
| `Ledger.MarkPaymentAsPaid` | src/components/Addproject.jsx:59-69 | The pure markPaymentAsPaid step that the lemmas and the method are stated against. Its contract: the projects stay, every payment keeps its place, id and amount, after a change every payment with the id is paid, and an unknown id changes nothing. |
| `Ledger.DeletePayment` | src/components/Addproject.jsx:72-78 | The pure as-written deletePayment step that the lemmas and the method are stated against. Its contract: the projects stay, no payment with the id remains, and the state is unchanged if and only if no payment had the id. |
| `Ledger.DeletePaymentCorrected` | src/components/Addproject.jsx:76 | The corrected deletePayment step that the corrected lemmas are stated against. Its contract: it removes the same payments as the as-written step, and its total differs from the as-written total only when a payment with the id is unpaid. |
| `LedgerProperties.PaidAmountRemoveAt` | src/components/Addproject.jsx:24-25 | Removing the payment at i lowers the paid-amount sum by its amount if it is paid, and by nothing otherwise. |
| `LedgerProperties.PaidAmountReplaceAt` | src/components/Addproject.jsx:24-25 | Replacing the payment at i swaps its contribution to the paid-amount sum for the new payment's. |
| `LedgerProperties.ProjectEarningsRemoveAt` | src/components/Addproject.jsx:23 | Removing the project at i lowers the earnings sum by exactly its earnings. |
| `LedgerProperties.InitialState` | src/components/Addproject.jsx:8-27 | The seed total is 20666 + 15011 + 20666, and the seed state has unique ids and a balanced total. |
| `LedgerProperties.AddProjectAppends` | src/components/Addproject.jsx:29-33 | addProject appends one project with the new id and the given fields, and one unpaid payment whose amount is the earnings. All earlier elements stay in order, and the total rises by the earnings. |
| `LedgerProperties.AddProjectKeepsBalance` | src/components/Addproject.jsx:31-33 | addProject keeps the total equal to the formula. |
| `LedgerProperties.AddProjectUniqueIdsIff` | src/components/Addproject.jsx:30-33 | After addProject, ids stay unique if and only if the project id and the payment id it uses were not already in use. |
| `LedgerProperties.AddProjectKeepsConsistent` | src/components/Addproject.jsx:29-35 | With fresh ids, addProject keeps the invariant. |
| `LedgerProperties.DeleteProjectAbsent` | src/components/Addproject.jsx:39-40 | deleteProject with an unknown id changes nothing. |
| `LedgerProperties.DeleteProjectPresent` | src/components/Addproject.jsx:38-44 | Every project with the id goes and every other project stays. The total drops by the first match's earnings, and the payments are untouched. |
| `LedgerProperties.DeleteProjectRemovesOne` | src/components/Addproject.jsx:41-42 | With unique ids, deleteProject cuts exactly the matching project out of the list, keeping the others in order. |
| `LedgerProperties.DeleteProjectKeepsConsistent` | src/components/Addproject.jsx:38-45 | deleteProject keeps the invariant. |
| `LedgerProperties.DuplicateProjectIdsBreakBalance` | src/components/Addproject.jsx:41-42 | With two projects sharing an id, deleteProject removes both but subtracts one, so the total leaves the formula. |
| `LedgerProperties.ToggleProjectStatusEffect` | src/components/Addproject.jsx:47-56 | toggleProjectStatus keeps the length, flips `active` to `completed` and anything else to `active` on matching projects only, and changes no other field, payment or total. |
| `LedgerProperties.ToggleTwiceIff` | src/components/Addproject.jsx:50 | Toggling twice restores the state if and only if every matching project is active or completed. |
| `LedgerProperties.ToggleTwiceRestores` | src/components/Addproject.jsx:50 | When every matching project is active or completed, toggling twice gives back the same state. |
| `LedgerProperties.ToggleTwiceLosesStatus` | src/components/Addproject.jsx:50 | A matching project with any other status is completed after two toggles. |
| `LedgerProperties.ToggleKeepsConsistent` | src/components/Addproject.jsx:47-57 | toggleProjectStatus keeps the invariant. |
| `LedgerProperties.MarkPaymentAsPaidAbsent` | src/components/Addproject.jsx:60-61 | markPaymentAsPaid with an unknown id changes nothing. |
| `LedgerProperties.MarkPaymentAsPaidAt` | src/components/Addproject.jsx:59-69 | If the first match is paid, nothing changes. Otherwise every matching payment becomes paid, the rest stay, the total rises by the first match's amount, and the projects are untouched. |
| `LedgerProperties.MarkPaymentAsPaidIdempotent` | src/components/Addproject.jsx:61 | Calling markPaymentAsPaid twice gives the same state as calling it once. |
| `LedgerProperties.MarkPaymentAsPaidKeepsConsistent` | src/components/Addproject.jsx:59-70 | markPaymentAsPaid keeps the invariant. |
| `LedgerProperties.DeletePaymentAbsent` | src/components/Addproject.jsx:73-74 | deletePayment with an unknown id changes nothing. |
| `LedgerProperties.DeletePaymentPresent` | src/components/Addproject.jsx:72-78 | Every payment with the id goes and every other payment stays. The total drops by the first match's amount whatever its status, and the projects are untouched. |
| `LedgerProperties.DeletePaymentRemovesOne` | src/components/Addproject.jsx:75-76 | With unique ids, deletePayment cuts exactly the matching payment out of the list, in order, and subtracts its amount. |
| `LedgerProperties.DeletePaymentDrift` | src/components/Addproject.jsx:76 | From a consistent state, after deletePayment the total falls short of the formula by the deleted amount when that payment was unpaid, and equals the formula when it was paid. |
| `LedgerProperties.DeletePaymentKeepsConsistentIff` | src/components/Addproject.jsx:72-79 | deletePayment keeps the invariant if and only if every payment with the id is paid or has amount 0. |
| `LedgerProperties.SeedDeleteUnpaidPayment` | src/components/Addproject.jsx:13-16 | From the seed state, deleting unpaid payment 2 leaves a total of 41332 while the formula gives 56343. |
| `LedgerProperties.DeletePaymentCorrectedKeepsConsistent` | src/components/Addproject.jsx:72-79 | The corrected deletePayment removes the same payments and keeps the invariant. |
| `LedgerProperties.StepKeepsConsistent` | src/components/Addproject.jsx:29-79 | Every handler, with the corrected deletePayment and fresh ids for addProject, keeps the invariant. |
| `LedgerProperties.RunKeepsConsistent` | src/components/Addproject.jsx:21-79 | Any sequence of handler calls from a consistent state, with fresh ids for every addProject and the corrected deletePayment, ends consistent. |
| `LedgerProperties.RunAsWrittenBreaksBalance` | src/components/Addproject.jsx:72-79 | As written, one deletePayment call from the seed state already ends unbalanced. |
| `ProjectAddComponent.ProjectAdd.constructor` | src/components/Addproject.jsx:19-27 | The component starts with the seed lists and a total of 56343, and in a consistent state. |
| `ProjectAddComponent.ProjectAdd.AddProject` | src/components/Addproject.jsx:29-35 | The fields become the addProject step of the old state, and a notice is always shown. With fresh ids, a consistent state stays consistent. |
| `ProjectAddComponent.ProjectAdd.DeleteProject` | src/components/Addproject.jsx:38-45 | The fields become the deleteProject step of the old state. A notice is shown if and only if the id was present, and a consistent state stays consistent. |
| `ProjectAddComponent.ProjectAdd.ToggleProjectStatus` | src/components/Addproject.jsx:47-57 | The fields become the toggle step of the old state. One notice is shown per matching project, and a consistent state stays consistent. |
| `ProjectAddComponent.ProjectAdd.MarkPaymentAsPaid` | src/components/Addproject.jsx:59-70 | The fields become the markPaymentAsPaid step of the old state. A notice is shown if and only if the first match was unpaid, and a consistent state stays consistent. |
| `ProjectAddComponent.ProjectAdd.DeletePayment` | src/components/Addproject.jsx:72-79 | The fields become the as-written deletePayment step of the old state. A notice is shown if and only if the id was present. A consistent state stays consistent if and only if every matching payment is paid or of amount 0. |

## Left out

- Rendering: the markup and styling (src/components/Addproject.jsx:81-129) are presentation only.
- Toast notifications (lines 34, 43, 51, 68, 77): only whether a notice is shown, or how many, is modelled. The message text and its severity are not.
- Clock: `Date.now()` ids (lines 30, 33) are parameters of `AddProject`. Their freshness is a premise of the invariant lemmas.
- `ProjectForm` and `PaymentsList` are not part of this model. The project fields reach `AddProject` as a `ProjectInput`. An `id` field inside the form's object, which the spread on line 30 would let override the generated id, is not modelled.
- React state: setter batching, and the handlers reading `projects`/`payments` from the render closure while the counter uses `prev =>`, are not modelled. Each handler is one atomic step on the current state.
- Numbers: `earnings` and `amount` are unbounded integers, not JavaScript floating point. Non-negativity is not assumed, because no proof needs it.
- ProjectAddComponent.ProjectAdd.DeletePayment: models the code as written. It does not use `DeletePaymentCorrected`. The corrected behaviour is used only in the `Step`/`Run` lemmas of `LedgerProperties`.

## Findings

| source | as written | input that shows it | evidently intended | confidence | as-written member | corrected member |
|---|---|---|---|---|---|---|
| src/components/Addproject.jsx:76 | deletePayment subtracts the deleted payment's amount whatever its status, although unpaid amounts were never added to the total | seed state, `deletePayment(2)` (unpaid, 15011): total becomes 41332 while the formula gives 56343 | subtract the amount only when the payment was paid | high; not executed | `LedgerProperties.SeedDeleteUnpaidPayment` | `LedgerProperties.DeletePaymentCorrectedKeepsConsistent` |
