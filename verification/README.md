# A verified model of the decision core

This project models the parts of the commerce platform whose mistakes are hard to see by reading:
the detector for encoded secret markers, the signal cache shared by threads, the LinUCB bandit, the
arbitration of agents' decisions, the evidence-to-promotion pipeline, the pod registry with its
budget rules, and two small loops that replace a slower definition. For each, the Dafny files give
the operations in the form of the original (loops over sequences, classes that change their
fields, step systems for what threads interleave) and prove what they are for.

| module | models | main results |
|---|---|---|
| `DecodePass`, `SecretMarkers`, `EscapeEncoding` | evaluation/secret_markers.py | decoding converges within the length of the text; whatever number of passes exposes a token, the detector flags the text; one pass undoes any mixture of notations and reads nothing else, and nesting to any depth is detected; exactly how the detector over-approximates |
| `SignalCache`, `SignalSources` | core/signals.py | single flight, burst sharing, use and freshness of the cache and completion of every call in every interleaving; the exact condition under which a forced refresh can be stale; every source counted once |
| `LinearAlgebra`, `LinUcb` | core/contextual_bandit.py | A is symmetric, positive definite and invertible; the square root is always defined; theta is the ridge-regression optimum; an update shrinks its own bonus to w/(1+w); update order is irrelevant; `choose` returns the first maximiser |
| `Arbitration` | agents/arbitration.py | halting dominates; every verdict from the decisions alone; the exact condition under which their order cannot matter |
| `EvidenceConflicts`, `SupplierProvenance`, `PromotionLifecycle`, `ResearchRun` | scripts/research_to_decision.py | conflict detection is exact over a whole run; the exact condition under which an offer is marked along with its record; for every candidate of every run, only the operator can document a supplier and supplier claims interfere with nothing; every promotion trace is blocked |
| `Pods`, `RiskRules`, `BudgetAllocator`, `CapitalEngine`, `BudgetSplit` | core/pods.py, core/risk_rules.py, core/budget_allocator.py, core/capital_engine.py | the pod cap under n threads, tight; bounds on the planned total and, from the inputs alone, exactly when it fits; budgets stay in range; losing streaks end; `allocate_budget` equals a closed form exactly when its clamp is idle |
| `SpendProration`, `RepeatCustomers` | orchestrator/main.py, scripts/ingest_category_priors.py | charged time telescopes, exactly, for every history; the adjacent-gap scan equals the all-pairs definition |

`Wrappers`, `Reals` and `Texts` hold the shared result types, a few facts about real products, and
Python's text helpers.

## Where the code does less than it seems to promise

- **A forced refresh can return an old list** (core/signals.py:181-182, 236-237). The list and its
  timestamp are two stores. A forced call that begins between them reads the old timestamp as its
  generation, then finds it changed and returns the list that was there before it began.
  `SignalCache.ForcedCallStaleIff` shows that this happens exactly for calls that begin in that gap,
  and `SignalCache.ForcedCallGoesStale` gives such a run of two callers from the empty cache.
- **The pod cap is exceeded under concurrency** (core/pods.py:47-57), by at most the number of
  threads less one: `Pods.ActivePodsBounded`, `Pods.BoundIsReached`, `Pods.CapHoldsIff`.
- **An offer can escape the conflict mark** (scripts/research_to_decision.py:1085-1092, 1805-1813).
  A record is keyed by its product ID, SKU or URL as they stand and by its lower-cased, defaulted
  supplier (backend/adapters/research/supplier_feasibility.py:246-252); the offer is looked up by
  the row's own supplier text, or "unknown", and its SKU (lines 1243-1244). The two agree exactly
  for rows without runs of whitespace that name a known supplier in lower case and are identified
  by their SKU: `ResearchRun.OfferMarkedIff`. `ResearchRun.CapitalsGoUnmarked` gives two files with
  the supplier "CJ", or none, whose conflict marks nothing.
- **Arbitration depends on input order** when two risk decisions disagree or two halting decisions
  of equal, top confidence want different actions: `Arbitration.OrderIrrelevantIff`.
- **The allocator can plan more than the daily budget** (core/budget_allocator.py:71-89):
  `BudgetAllocator.TotalCanExceed`. `BudgetAllocator.TotalWithinBudgetIff` reads off the campaigns
  and limits when it does not.
- **The `remaining` clamp of `allocate_budget` never binds** on a non-negative total
  (core/capital_engine.py:164-167), so winners get no priority over other chosen pods:
  `BudgetSplit.NeverClampedIff`.

## Model

| member | source | states |
|---|---|---|
| DecodePass.DecodeOnePass | evaluation/secret_markers.py:24-66 | The index loop computes the pass whose convergence, survival and round-trip laws are proved below, with every index in bounds. |
| DecodePass.ReadOctal | evaluation/secret_markers.py:36-44 | The octal sub-loop takes up to three digits and gives one back above 0o377; its value is always a code point. |
| DecodePass.DecodeShrinks | evaluation/secret_markers.py:24-66 | A pass never lengthens a text, and changes it if and only if it shortens it. |
| DecodePass.PassesAreBounded | evaluation/secret_markers.py:69-80 | After n passes the text has converged or has lost at least n code points. |
| DecodePass.ReachesFixpoint | evaluation/secret_markers.py:69-80 | Iteration reaches a fixpoint within as many passes as the text is long and never leaves it. |
| SecretMarkers.CanonicalSecretMarkerView | evaluation/secret_markers.py:69-80 | The view is the tenth iterate, early exit or not, and the flag is true exactly when the view is a fixpoint. |
| SecretMarkers.ContainsBoundaryPrefixedSkToken | evaluation/secret_markers.py:83-93 | True exactly for strings with the legacy pattern, without convergence in ten passes, or for which some number of passes exposes a token; false for non-strings. |
| SecretMarkers.PatternsInCharacters | evaluation/secret_markers.py:8-9 | What the two patterns match, in characters of the text as it stands: either letter case, the Kelvin sign, and the three legacy contexts. |
| SecretMarkers.EscapesEndInWordChars | evaluation/secret_markers.py:24-66 | No escape can swallow a character of a boundary-prefixed token or end on its boundary character. |
| SecretMarkers.TokenSurvivesPass | evaluation/secret_markers.py:24-66 | A boundary-prefixed token is still there, still at a boundary, after a pass. |
| SecretMarkers.TokenSurvives | evaluation/secret_markers.py:24-80 | A token exposed after m passes is exposed after every later number of passes. |
| SecretMarkers.ExposedTokenIsFlagged | evaluation/secret_markers.py:69-93 | For every text and every n: if n passes expose a token, the text is flagged. |
| SecretMarkers.FlaggedExactly | evaluation/secret_markers.py:83-93 | Apart from the legacy pattern and failing closed, a text is flagged if and only if some number of passes exposes a token. |
| SecretMarkers.ShortTextsConverge | evaluation/secret_markers.py:75-80 | Failing closed never concerns a text of at most ten code points. |
| EscapeEncoding.DecodeUndoesEncoding | evaluation/secret_markers.py:29-66 | One pass over any text that spells s, each code point in a notation, width and letter case of its own, returns exactly s; a short octal or four-digit escape only must not run into further digits. |
| EscapeEncoding.StepExact | evaluation/secret_markers.py:28-65 | Every step of the scan reads a spelling that ends where the step does, or an escape beyond Unicode, or one literal code point, and the last only where neither of the others is possible. |
| EscapeEncoding.EveryNotationChoiceEncodes | evaluation/secret_markers.py:29-66 | Every choice among six notations per position, shortest octal included, gives such an encoding of every s, and decoding it returns s. |
| EscapeEncoding.OutOfRangeEscapes | evaluation/secret_markers.py:36-57 | Octal escapes above 0o377 give back their third digit; eight-digit escapes beyond Unicode become U+FFFD. |
| EscapeEncoding.HexAlphabet | evaluation/secret_markers.py:10-11 | The hexadecimal and octal digits and their values, digit by digit. |
| EscapeEncoding.LowerExactly | evaluation/secret_markers.py:35 | The letter case the scan ignores. |
| EscapeEncoding.PassesUnwrapNesting | evaluation/secret_markers.py:69-80 | d passes undo d nested encodings. |
| EscapeEncoding.NestedTokenIsFlagged | evaluation/secret_markers.py:69-93 | A text showing a token is flagged however often and however it is encoded. |
| EscapeEncoding.FailClosedIsNotExact | evaluation/secret_markers.py:75-92 | The detector over-approximates: a nested percent escape is flagged exactly from depth 10 on, though no number of passes ever shows a token. |
| SignalCache.SingleFlight | core/signals.py:151-187 | In every interleaving at most one caller is refreshing, completed refreshes are counted exactly, and no two callers refresh from one generation. |
| SignalCache.StoreOvertakesWaiting | core/signals.py:154-160 | Storing a timestamp overtakes every caller that has read a generation and waits for the lock. |
| SignalCache.OvertakenNeverRefreshes | core/signals.py:154-160 | A caller that read the generation before another's store never runs its own refresh, at any later point of any run. |
| SignalCache.BurstRefreshesOnce | core/signals.py:151-187 | A burst that reads one generation and needs a refresh causes exactly one; all members but its owner reuse its result. |
| SignalCache.HitsAreFresh | core/signals.py:137-170 | Every result is a stored, non-empty list; a hit's list was fetched less than the TTL before the hit's clock reading; a forced call never counts as a hit. |
| SignalCache.FreshCacheIsHit | core/signals.py:137-149 | A fresh cache is used: an unforced call that begins within the TTL of the stamp of a non-empty cache ends as a fast hit in every interleaving and never waits or refreshes. |
| SignalCache.RefreshesAreDue | core/signals.py:157-187 | No needless refresh: in every interleaving a list fetched by an unforced call started at least the TTL after the list it replaced. |
| SignalCache.CopiesTheLatestList | core/signals.py:149-170 | Every early return copies the list stored last. |
| SignalCache.SomebodyCanMove | core/signals.py:155-187 | No deadlock: while a call is under way, some caller can take its next step. |
| SignalCache.RunsAreFinite | core/signals.py:130-242 | No livelock: every step of any caller uses up work, so n calls take at most 9n steps in every interleaving. |
| SignalCache.CallsComplete | core/signals.py:130-242 | A run that nobody under way can continue has returned from every call. |
| SignalCache.ForcedCallIsFresh | core/signals.py:130-160 | A forced call that does not begin between another caller's two stores never returns a list stored before it began. |
| SignalCache.ForcedCallCanBeStale | core/signals.py:236-237 | From every reachable state between the two stores a forced call can be made to return an older list. |
| SignalCache.ReachesMidPublish | core/signals.py:130-181 | An execution from the empty cache in which caller 0 is between its two stores and caller 1 has not been called. |
| SignalCache.ForcedCallGoesStale | core/signals.py:130-182 | From there a forced call of caller 1 returns a list stored before it began: the failure is reachable. |
| SignalCache.ForcedCallStaleIff | core/signals.py:130-170 | A forced call can return a list stored before it began if and only if some caller is between its two stores when it begins. |
| SignalSources.SourceLedger.Collect | core/signals.py:193-231 | The signals of the successful sources in registration order; every per-source counter grows by exactly that source's failures or successes. |
| SignalSources.SourceLedger.Refresh | core/signals.py:179-237 | The list a refresh stores is never empty: the mock signals stand in when nothing was gathered. |
| SignalSources.EverySourceCountedOnce | core/signals.py:214-231 | Failures and successes counted under a name add up to the sources of that name. |
| SignalSources.GatheredAttributed | core/signals.py:194-202 | Every gathered signal names a source and comes, otherwise unchanged, from one that returned. |
| SignalSources.AttributeOnlyAdds | core/signals.py:198-200 | A signal keeps its own source and every other key; one without a source is given it. |
| SignalSources.FailedIff | core/signals.py:194-207 | A source fails if and only if it times out or raises with a message; a nameless one is called unknown. |
| SignalSources.GatheredInOrder | core/signals.py:212-231 | Every signal of every source that returned is gathered, attributed to it, after all signals of the sources registered before, and nothing else is. |
| SignalSources.CountExactly | core/signals.py:224-228 | A name never counted stands at zero. |
| LinUcb.GramIsForm | core/contextual_bandit.py:10-31 | After any updates w'Az = w'z + sum of (x_k'w)(x_k'z), so z'Az = z'z + sum of (x_k'z)^2. |
| LinUcb.GramSymmetric | core/contextual_bandit.py:29-31 | A is symmetric after any updates. |
| LinUcb.FormDominatesNorm | core/contextual_bandit.py:29-31 | z'Az >= z'z >= 0 for every z. |
| LinUcb.SolutionUnique | core/contextual_bandit.py:19-21 | A y = x has at most one solution. |
| LinUcb.GramInvertible | core/contextual_bandit.py:19 | A y = x has a solution for every x after any updates, so the inverse always exists. |
| LinUcb.BonusDefined | core/contextual_bandit.py:21 | The radicand of the exploration bonus is at least y'y, hence never negative. |
| LinUcb.UpdateShrinksBonus | core/contextual_bandit.py:21-31 | Observing a context turns its own radicand w into w/(1+w), which is below 1 and never above w. |
| LinUcb.ThetaMinimisesLoss | core/contextual_bandit.py:20-32 | theta = inv(A) b is the unique minimiser of the regularised squared error over the history. |
| LinUcb.UpdateOrderIrrelevant | core/contextual_bandit.py:29-32 | A and b depend only on the multiset of updates. |
| LinUcb.LinUCB.constructor | core/contextual_bandit.py:7-11 | Every arm starts with the identity and the zero vector: the empty history. |
| LinUcb.LinUCB.Update | core/contextual_bandit.py:29-32 | A known arm's history gains exactly this observation, a single feature being stretched over all n, with A and b those of the new history; an unknown arm or a context of another size changes nothing. |
| LinUcb.StretchedSums | core/contextual_bandit.py:30-32 | Adding a one-feature context to A and b by broadcast is learning from that feature repeated n times. |
| LinUcb.Score | core/contextual_bandit.py:19-21 | The score computed with any true inverse is the upper confidence bound of the arm's history. |
| LinUcb.UcbExactly | core/contextual_bandit.py:19-21 | The bound is theta'x + alpha * sqrt(x' y) for any theta and y with A theta = b and A y = x. |
| LinUcb.LinUCB.Choose | core/contextual_bandit.py:13-27 | The first arm with the highest upper confidence bound, or none if no bound exceeds -1e9; an error if and only if there are arms and the context has the wrong size. |
| Arbitration.Arbitrate | agents/arbitration.py:141-218 | Total: every input list gets the verdict of its valid decisions (veto, consensus or fallback). |
| Arbitration.ReachConsensus | agents/arbitration.py:181-218 | The grouping, resolving and superseding loops together compute the axis-by-axis verdict. |
| Arbitration.GroupByAxis | agents/arbitration.py:180-184 | The groups partition the decisions by axis, in input order, none empty. |
| Arbitration.ResolveAll | agents/arbitration.py:185-191 | Each axis gets the outcome of its own group; unresolved is set if and only if some axis is ambiguous. |
| Arbitration.Supersede | agents/arbitration.py:193-202 | Exactly the axes other than the budget's are marked superseded; nothing else changes. |
| Arbitration.AxisDecidedBy | agents/arbitration.py:221-276 | Without reference to branches: an axis is ambiguous if and only if nobody halts, not all agree and two share the top confidence; otherwise the first decision no halting opinion opposes, the most confident of its kind, decides action, confidence and winner. |
| Arbitration.Vocabulary | agents/arbitration.py:62-74 | The agents of the budget axis, the halting actions, the override and the tie tolerance, as literals. |
| Arbitration.FallbackIff | agents/arbitration.py:154-160 | The fallback is for no valid decisions only: hold, unresolved, no axes. |
| Arbitration.VetoesIff | agents/arbitration.py:162-164 | A veto happens if and only if the first risk decision kills or pauses with an override. |
| Arbitration.VetoVerdict | agents/arbitration.py:165-177 | A veto carries the first risk decision's action, confidence and agent, on the budget axis alone. |
| Arbitration.ConsensusVerdict | agents/arbitration.py:179-218 | Otherwise: an outcome for exactly the axes some decision is on, each decided by its decisions; the primary is the budget axis's action, or hold without one; a halted budget axis supersedes exactly the others; unresolved if and only if an axis is contested. |
| Arbitration.ValidParts | agents/arbitration.py:158 | The valid decisions keep their input order; only foreign items and nameless decisions are dropped. |
| Arbitration.HaltingDominates | agents/arbitration.py:193-257 | One halting opinion halts its axis; on the budget axis it halts the campaign and supersedes all other axes. |
| Arbitration.AmbiguityHolds | agents/arbitration.py:259-268 | An ambiguous axis holds and the verdict is flagged unresolved. |
| Arbitration.HalterActionPermutes | agents/arbitration.py:248-251 | Among halters whose top-confidence members agree, reordering does not change the winning action. |
| Arbitration.RankingPermutes | agents/arbitration.py:259-262 | Reordering a group changes neither the top two confidences nor, when they differ, the top decision. |
| Arbitration.OrderProofSuffices | agents/arbitration.py:154-276 | Under the condition below, reordering changes neither tier, primary action, axes, their actions, superseded marks nor the unresolved flag. |
| Arbitration.OrderIrrelevantIff | agents/arbitration.py:154-276 | Order can never matter if and only if all risk decisions override alike, when one does, and otherwise no two halting decisions of equal top confidence on an axis differ in action. |
| Arbitration.OneRiskNoClash | agents/arbitration.py:154-276 | In particular one risk decision and no clash make the ruling independent of order. |
| Arbitration.ReorderedInputSameRuling | agents/arbitration.py:158-276 | The same for the raw input with invalid items mixed in anywhere. |
| EvidenceConflicts.DetectionExact | scripts/research_to_decision.py:1099-1121 | Although only the latest value is remembered, the keys reported are exactly those with two unequal values anywhere in the run. |
| EvidenceConflicts.IdentityExactly | scripts/research_to_decision.py:1087-1092 | A supplier record is identified by its product ID, else its SKU, else its URL. |
| EvidenceConflicts.SameKeyMeans | scripts/research_to_decision.py:1085-1096 | When two records of a role speak of the same thing, attribute by attribute. |
| EvidenceConflicts.SameValueMeans | scripts/research_to_decision.py:1104-1113 | When they say the same of it, attribute by attribute. |
| EvidenceConflicts.EvidenceIntake.CheckRecordConflicts | scripts/research_to_decision.py:1099-1121 | A call reports the keys its records add to the detected ones; a conflict that is not an allowed supplier conflict is an error, and only that. |
| EvidenceConflicts.IntakeAll | scripts/research_to_decision.py:1754-1820 | A run fails if and only if a non-supplier key has two values; otherwise the supplier conflict keys are exactly those with two values, and exactly the records under them are dropped. |
| EvidenceConflicts.AcceptedExactly | scripts/research_to_decision.py:1769-1775 | The accepted records are exactly those of the supplier imports whose offers the import did not quarantine. |
| EvidenceConflicts.SurvivorsAgree | scripts/research_to_decision.py:1805-1819 | Surviving supplier records with the same key have the same compared values. |
| SupplierProvenance.OperatorSupplierConfirmations | scripts/research_to_decision.py:432-446 | Accepted if and only if at most 100 entries, each three required texts whose reference is safe, no two the same triple up to whitespace; the result is exactly those triples. |
| SupplierProvenance.OperatorConfirmedIff | scripts/research_to_decision.py:1212-1215 | A row is confirmed if and only if it has a reference and some operator entry names its offer, SKU and reference up to whitespace. |
| SupplierProvenance.ClaimExactly | scripts/research_to_decision.py:1140-1153 | The words that mean true, false or an error in the confirmation columns. |
| SupplierProvenance.OfferExactly | scripts/research_to_decision.py:1180-1291 | Which rows are accepted and what each field of the offer carries, the operator confirmation and the evidence state included. |
| SupplierProvenance.DocumentedNeedsOperator | scripts/research_to_decision.py:1207-1215 | A packet's trace visits supplier_documented if and only if there is an offer and every one has terms and policy and comes from a CSV row whose id, SKU and explicit reference the operator confirmed. |
| SupplierProvenance.ClaimsDoNotInterfere | scripts/research_to_decision.py:1492-1596 | Packets differing only in what supplier files claim about their own confirmation get the same trace, outcome and gaps. |
| PromotionLifecycle.PromotionLog.Add | scripts/research_to_decision.py:1526-1540 | Appends one transition from the prior state to the next and makes that the prior state. |
| PromotionLifecycle.PromotionLog.AddSupplierSteps | scripts/research_to_decision.py:1545-1566 | The supplier steps extend the trace, and the review blocker appears exactly when terms and policy are there without documentation. |
| PromotionLifecycle.PromoteCandidate | scripts/research_to_decision.py:1492-1596 | Never fails on the transition cap: at most 15 steps. From the packet alone: rejected by lifecycle or synthesis, else deferred, else needing evidence if an offer, a clean offer, market evidence or a known lane is missing, else held on request, else a candidate only; never a launch candidate. |
| PromotionLifecycle.TraceClimbs | scripts/research_to_decision.py:1526-1587 | Every trace is a chain that visits states in one fixed order, each at most once. |
| PromotionLifecycle.TraceVisits | scripts/research_to_decision.py:1542-1587 | A state is visited if and only if its condition holds. |
| PromotionLifecycle.TraceExactly | scripts/research_to_decision.py:1542-1587 | A trace is exactly the states the packet qualifies for, in the listed order. |
| PromotionLifecycle.EntersIff | scripts/research_to_decision.py:1545-1585 | The condition of every state, from the packet alone. |
| PromotionLifecycle.EveryTraceIsBlocked | scripts/research_to_decision.py:1492-1596 | For every packet: a chain without repetition of at most 15 steps, through promotion_blocked, ending in launch_authorized_false, never at a launch state. |
| PromotionLifecycle.DocumentedVisit | scripts/research_to_decision.py:1551-1562 | When a trace visits supplier_documented, in terms of the offers. |
| PromotionLifecycle.EveryStepReportsBlockers | scripts/research_to_decision.py:1526-1587 | The evidence state and the exact blocking conditions of every step: none for the first two, the gaps at evidence_incomplete, all blockers known at its point for any other. |
| PromotionLifecycle.BlockersExactly | scripts/research_to_decision.py:1509-1522 | Every blocker and every gap, one by one, from the packet; the two standing gates always. |
| PromotionLifecycle.GapsIff | scripts/research_to_decision.py:1515-1522 | There is a gap if and only if an offer, a clean offer, market evidence or a known lane is missing. |
| PromotionLifecycle.EvidenceLabel | scripts/research_to_decision.py:1435-1440 | The label of a trace: its offers' common evidence state, unavailable if they differ, the lane's without offers. |
| PromotionLifecycle.OutcomeWithoutGaps | scripts/research_to_decision.py:1471-1489 | A hold or candidate outcome implies offers without issues, market evidence, and a lane that is not unavailable, malformed or blocked. |
| ResearchRun.MarkConflicts | scripts/research_to_decision.py:1805-1813 | The loop marks exactly the offers whose own key is among the conflicts and changes nothing else of them. |
| ResearchRun.BuildReport | scripts/research_to_decision.py:1754-1820 | Loading, conflict checks, marking and filter together compute the report of the run, or fail with it. |
| ResearchRun.RunSucceedsIff | scripts/research_to_decision.py:1754-1768 | A run succeeds if and only if every row is acceptable and no evidence other than a supplier's contradicts itself. |
| ResearchRun.OffersExactly | scripts/research_to_decision.py:1322-1340 | The offers of a run are exactly those of its files' selected rows. |
| ResearchRun.SurvivorsExactly | scripts/research_to_decision.py:1769-1819 | The surviving records are exactly the selected ones that share candidate and SKU with no offending offer of their file and whose key never had two values. |
| ResearchRun.RecordExactly | backend/adapters/research/supplier_feasibility.py:246-259 | Which rows give a record, and the attributes the conflict check reads. |
| ResearchRun.RecordSupplierExactly | backend/adapters/research/supplier_feasibility.py:246-252 | The supplier of a record, name by name. |
| ResearchRun.RowsConflictIff | scripts/research_to_decision.py:1105-1107 | Two rows of one key conflict if and only if cost, shipping, currency or destination differ. |
| ResearchRun.MarkedExactly | scripts/research_to_decision.py:1805-1813 | An offer gains the mark if and only if its own key had two values somewhere in the run; its other issues and fields stay. |
| ResearchRun.SameSupplierIff | backend/adapters/research/supplier_feasibility.py:246-252 | A record's supplier is its offer's if and only if the row names a known supplier verbatim. |
| ResearchRun.SameKeyIff | scripts/research_to_decision.py:1085-1092 | A row's record and offer have the same key if and only if candidate, supplier and SKU are spelled in the row as they end up in the record, which the SKU identifies. |
| ResearchRun.OfferMarkedIff | scripts/research_to_decision.py:1805-1813 | Whatever is imported, an offer is marked along with its conflicting record if and only if the row meets that condition. |
| ResearchRun.ConflictGoesUnmarked | scripts/research_to_decision.py:1805-1813 | Any other row, quoted at two prices in two files, conflicts and leaves both offers unmarked. |
| ResearchRun.CapitalsGoUnmarked | scripts/research_to_decision.py:1243-1244 | In particular a row without product ID whose supplier is "CJ" or missing. |
| ResearchRun.OffersForExact | scripts/research_to_decision.py:1654 | A candidate is judged on exactly its own offers. |
| ResearchRun.OffersForSorted | scripts/research_to_decision.py:1654 | They come sorted by offer id, each as often as the run has it. |
| ResearchRun.BeforeIff | scripts/research_to_decision.py:1654 | The order is that of Python strings. |
| ResearchRun.LoadedOffersImported | scripts/research_to_decision.py:1322-1340 | Every loaded offer is the normalised form of a row of some imported file. |
| ResearchRun.CandidateDocumentedIff | scripts/research_to_decision.py:1551-1562 | For every candidate of every run: its trace visits supplier_documented if and only if it has an offer and each of its offers has terms and policy and comes from a CSV row that the operator confirmed. |
| ResearchRun.RunsDifferingInClaims | scripts/research_to_decision.py:1140-1215 | Changing valid human_confirmed and human_reviewed values to other valid ones changes neither whether a run succeeds nor, for any candidate, trace, outcome or gaps. |
| Texts.CollapseNormalises | scripts/research_to_decision.py:206-212 | _text keeps the words in order, and doing it twice changes nothing. |
| Texts.SplitUndoesJoin | scripts/research_to_decision.py:207 | Splitting words joined by single spaces gives the words back. |
| Texts.StripExactly | backend/adapters/research/supplier_feasibility.py:257 | strip removes exactly the whitespace at both ends. |
| Pods.PodManager.ActiveCount | core/pods.py:42-45 | Counts exactly the pods that are not killed. |
| Pods.PodManager.Create | core/pods.py:47-57 | Alone, create succeeds if and only if fewer than the maximum are active, adds exactly that pod, and keeps the cap. |
| Pods.PodManager.Kill | core/pods.py:78-84 | Changes the status of exactly that pod; an unknown one is an error that changes nothing. |
| Pods.PodManager.UpdateMetrics | core/pods.py:86-92 | Changes the metrics of exactly that pod; an unknown one is an error that changes nothing. |
| Pods.StepKeepsInv | core/pods.py:47-96 | Active pods plus admitted threads stay within max + n - 1 over every locked step. |
| Pods.ActivePodsBounded | core/pods.py:47-57 | In every reachable state of n threads at most max + n - 1 pods are active; for one thread, max. |
| Pods.BoundIsReached | core/pods.py:47-57 | That bound is reached by some run, for every n and max of at least one. |
| Pods.CapHoldsIff | core/pods.py:47-57 | The configured cap holds in all runs if and only if there is at most one thread or nothing may be created. |
| RiskRules.DecideMonotone | core/risk_rules.py:53-71 | A higher ROAS never leads to a lower proposed budget. |
| RiskRules.DecideExactly | core/risk_rules.py:37-71 | Kill if and only if clean data show a ROAS below the kill threshold, scale if and only if they show one past the hold threshold, by 1.15, 1.35 or 1.6 by band; all else holds; with the reason of each. |
| RiskRules.DefaultDecisions | core/risk_rules.py:15-71 | The same with the default thresholds as literals. |
| RiskRules.DrawdownThreshold | core/risk_rules.py:45-51 | The stop fires if and only if equity is below a fixed fraction of a positive peak. |
| BudgetAllocator.Allocate | core/budget_allocator.py:33-96 | Under a drawdown exactly the budgeted campaigns are killed, in order; otherwise the campaigns are planned in order within the bound below. |
| BudgetAllocator.PlanFromStatistics | core/budget_allocator.py:52-94 | Every plan from its campaign's statistics, budget and the thresholds: killed with 0, held at its budget, or scaled by the band's rate within the caps, and when money runs short to the rest or the floor, whichever is more. |
| BudgetAllocator.CappedIsLeast | core/budget_allocator.py:71-76 | The capped proposal is the least of proposal, share of the daily budget and increased current budget. |
| BudgetAllocator.LosingCampaignKilled | core/budget_allocator.py:86-87 | By default a clean campaign with ROAS 0.5 is planned as kill with 0. |
| BudgetAllocator.PlanOne | core/budget_allocator.py:69-89 | The loop body's successive caps amount to the grant whose bounds are proved below. |
| BudgetAllocator.GrantBounded | core/budget_allocator.py:71-81 | A scaled budget is at most the floor or all of proposal, share cap and increase cap, takes the total past the daily budget by at most the floor, and is all its caps allow unless it uses up the daily budget. |
| BudgetAllocator.TotalBounded | core/budget_allocator.py:50-96 | The total is at most the daily budget plus what was held plus the floor once per scaled campaign, with no assumption on the inputs. |
| BudgetAllocator.EachPlanBounded | core/budget_allocator.py:52-94 | Every plan is its campaign's, in order, within what its action may grant; money is withheld from a scaled campaign only when the running total has reached the daily budget. |
| BudgetAllocator.TotalWithinBudgetIff | core/budget_allocator.py:50-96 | From the campaigns and limits alone: the total respects the daily budget if and only if each held budget, and each scaled campaign's demand up to the floor, fits on top of all earlier demands; the total is then the demands cut off at the daily budget. |
| BudgetAllocator.DemandNonNegative | core/budget_allocator.py:71-87 | Demands are non-negative whenever the current budgets and the limits are. |
| BudgetAllocator.TotalCanExceed | core/budget_allocator.py:83-84 | A concrete held campaign takes the total past the daily budget. |
| CapitalEngine.CapitalEngineV2.RecordSpend | core/capital_engine.py:70-73 | Adds to that pod's total, leaves all others, returns the new total. |
| CapitalEngine.CapitalEngineV2.ResetSpend | core/capital_engine.py:79-81 | Forgets exactly that pod's total. |
| CapitalEngine.LedgerConserves | core/capital_engine.py:70-81 | A pod's tracked spend is what was recorded for it since its last reset, whatever happened to others. |
| CapitalEngine.CapitalEngineV2.Apply | core/capital_engine.py:109-138 | The pod becomes what the decision makes of it and its spend is recorded once; a zero scale threshold is an error that changes nothing. |
| CapitalEngine.AppliedByBand | core/capital_engine.py:97-138 | By ROAS band: winners scale by a factor between minimum and maximum up to the cap, losers shrink or are killed with budget 0 at most 5 or below 1, all others stay as they are. |
| CapitalEngine.DefaultGrowth | core/capital_engine.py:87-122 | By default a pod at four times its spend grows by half, up to 500. |
| CapitalEngine.DefaultRest | core/capital_engine.py:97-129 | By default a pod between its spend and twice it rests, and one below is halved. |
| CapitalEngine.CapitalEngineV2.EnforceDailyCap | core/capital_engine.py:171-176 | Kills the pod exactly when its tracked spend has reached the cap. |
| CapitalEngine.FactorAtLeast | core/capital_engine.py:87-95 | The interpolated factor never turns a budget negative. |
| CapitalEngine.FactorInterpolates | core/capital_engine.py:87-95 | The factor is the minimum up to the threshold, the maximum from twice the threshold on, and proportional to the distance in between. |
| CapitalEngine.FactorGrows | core/capital_engine.py:87-95 | The factor lies between minimum and maximum and never falls as ROAS rises. |
| CapitalEngine.BetterRoasNeverCosts | core/capital_engine.py:97-133 | Across all branches, the better of two ROAS never leaves the same pod with the smaller budget. |
| CapitalEngine.BudgetStaysInRange | core/capital_engine.py:109-133 | One call keeps a budget between 0 and the daily cap. |
| CapitalEngine.RunStaysInRange | core/capital_engine.py:97-138 | So does any run of calls, and a zero budget stays zero. |
| CapitalEngine.LosingStreakKills | core/capital_engine.py:97-138 | If k reductions bring the budget to at most 5, k + 1 losing calls kill the pod with budget 0. |
| CapitalEngine.HalvingStreak | core/capital_engine.py:97-138 | With factor one half, a budget of at most 5 * 2^k is gone after k + 1 losing calls. |
| BudgetSplit.AllocateBudget | core/capital_engine.py:144-169 | On a non-negative total exactly the chosen pods get the rounded closed-form share; a division by zero if and only if pods are active and none may be chosen. |
| BudgetSplit.ChosenCount | core/capital_engine.py:150-158 | As many pods are chosen as the maximum allows, counting from the end if it is negative. |
| BudgetSplit.ActiveMultiset | core/capital_engine.py:150 | Every pod that is not killed is considered, as often as it is listed. |
| BudgetSplit.SortedKeeps | core/capital_engine.py:155 | The sort is a descending permutation. |
| BudgetSplit.SortedStable | core/capital_engine.py:155 | Pods with the same ROAS keep their order. |
| BudgetSplit.RemainingIsEnough | core/capital_engine.py:160-167 | While the clamp is idle, what remains after i pods is the total less i shares, and each allocation is the share. |
| BudgetSplit.NeverClampedIff | core/capital_engine.py:160-167 | The remaining clamp never binds if and only if the total is non-negative, there is one pod, or the cap is at most the total. |
| BudgetSplit.AllocationExactly | core/capital_engine.py:160-167 | Every allocation for every input: the share, except that a clamp that binds gives the whole negative total to the first pod. |
| BudgetSplit.AllottedEach | core/capital_engine.py:161-169 | What each chosen pod is allotted, for every input. |
| BudgetSplit.SharesSum | core/capital_engine.py:160-167 | The unrounded shares sum to the lesser of the total and n caps. |
| BudgetSplit.AllottedShares | core/capital_engine.py:161-169 | With money to split, every chosen pod gets the rounded share and nobody else anything. |
| BudgetSplit.Round4 | core/capital_engine.py:166 | Rounding moves a share by at most 0.00005. |
| BudgetSplit.Round4Exactly | core/capital_engine.py:166 | Rounding yields a multiple of 0.0001, the even one if two are equally near. |
| BudgetSplit.RoundedSharesBounded | core/capital_engine.py:160-167 | n rounded shares exceed the money by at most n * 0.00005. |
| BudgetSplit.ChosenAreBest | core/capital_engine.py:150-158 | Only active pods are chosen, and none left out has a higher ROAS than one chosen. |
| SpendProration.SpendMeter.Observe | orchestrator/main.py:978-991 | The estimate is the prorated budget, between 0 and the daily budget; it is added to the campaign's spend and the timestamp moves only when recording succeeds. |
| SpendProration.ChargedExactly | orchestrator/main.py:974-993 | For every history the charged time is one hour plus the span of the recorded readings, plus backward clock movement, minus what lies beyond a day. |
| SpendProration.RegularHasNoCorrections | orchestrator/main.py:979-981 | The corrections vanish if and only if readings never run backwards and are at most a day apart. |
| SpendProration.SpendTelescopes | orchestrator/main.py:974-993 | Then total spend is budget * (3600 + tn - t0) / 86400, however the interval is subdivided. |
| SpendProration.ChargedAtMostSpan | orchestrator/main.py:974-993 | With a clock that never runs backwards, no more than the true span plus the first hour is charged. |
| RepeatCustomers.CountRepeatCustomers | scripts/ingest_category_priors.py:112-131 | The counts are exactly the customers having any two orders within the window, and all customers. |
| RepeatCustomers.GroupByCustomer | scripts/ingest_category_priors.py:112-117 | Each counted customer once, with exactly its timestamps in row order; rows without customer or timestamp are skipped. |
| RepeatCustomers.ScanGaps | scripts/ingest_category_priors.py:122-125 | Found if and only if some neighbours lie within the window. |
| RepeatCustomers.NeighboursSuffice | scripts/ingest_category_priors.py:121-125 | In a sorted list some neighbours are close if and only if some pair is. |
| RepeatCustomers.PairsAreRepeats | scripts/ingest_category_priors.py:112-125 | A customer has a close pair of timestamps if and only if two of its rows lie within the window. |
| RepeatCustomers.ScanDecidesRepeat | scripts/ingest_category_priors.py:121-125 | Sorting and scanning decides, for every order list, whether the customer has two orders within the window. |
| RepeatCustomers.RowOrderIrrelevant | scripts/ingest_category_priors.py:112-131 | Reordering the rows changes neither the repeat customers nor the customers. |

## Left out

- Floating point: money, ROAS, confidences and matrices are exact reals. Rounding appears only in
  `BudgetSplit.Round4`. NaN and infinities do not occur.
- DecodePass.Lower: full Unicode case folding. Only A-Z and the Kelvin sign lower-case to a single
  ASCII character, which is all the patterns can see. Python's regular-expression engine is replaced
  by predicates on positions.
- SignalCache: `get` is a step system on values rather than a class, because its methods interleave;
  SignalSources has the collecting loop as a class. The clock strictly increases between readings.
  `clear_cache` and `register_source` do not run concurrently, and KeyboardInterrupt or SystemExit
  do not escape a refresh. Look-up and hit counters, which are unlocked, durations and Prometheus
  objects are absent.
- SignalSources.SourceLedger.Refresh: the random values of the mock signals are a parameter; the
  discovery registry and thread-pool timing are not part of this model.
- LinUcb.LinUCB.Choose: numpy's inverse and square root are function parameters. The inverse is
  assumed to be a true inverse of the matrices in use, which exists by GramInvertible.
- LinUcb: `save_state` and `load_state`, plain copies of the two dictionaries.
- Arbitration.Arbitrate: reason texts, contributor lists and the list of considered decisions, which
  depend on input order by design, and the outer handler that turns exceptions into the fallback.
- EvidenceConflicts: reading and validating files, lane checks. JSON texts are tuples of strings.
- SupplierProvenance: fields of an offer that neither the trace nor the outcome reads, byte bindings
  of documents and hashes. The URL and path rules for a safe reference are a parameter; the other
  checks a row can fail are one flag, which does not depend on the two confirmation columns.
- ResearchRun: a row gives one record; nested variants and products, and rows the importer drops as
  secret-like, are absent. How the importer merges duplicate records within a file is a parameter,
  of which OfferMarkedIff assumes that a single record is kept. The supplier, market and synthesis
  reports over the surviving records are a parameter.
- Texts.Lower: as for DecodePass.Lower, only letters whose lower case is ASCII.
- PromotionLifecycle: reason codes, evidence references, replay identities and times of transitions;
  the freshness and report fields of the audit. Blockers are a datatype, not texts.
- Pods: `update` is represented in the step system by status changes that do not revive a killed pod,
  for reviving one breaks any cap. Identifiers are assumed unique.
- BudgetAllocator.Allocate: the reason text of each plan and the parameter the code never reads.
- CapitalEngine: that a killed pod stays killed is not claimed, because `apply` can set one to
  scaling; that a zero budget stays zero is. Metrics always carry a ROAS and a spend.
- SpendProration.SpendTelescopes: stated for a constant budget, as a changed budget is charged at the
  rate in force at each reading. Revenue and the other workers of the loop are left out.
- RepeatCustomers: the delivery-time median and the rounded rate derived from the two counts.
- API routes, connectors, dashboards, checkpoints, the event store and everything that only moves
  data in and out.
