# provider-cards Deck controller, modelled in Dafny

This project models the Deck controller of the `provider-cards` Crossplane provider. A Deck is a
cluster-scoped managed resource. Its "external resource" is a mock that holds a shuffled 52-card
deck in the Deck's `status.atProvider.cards`. The model covers:

- **Deck construction** (`getSuits`, `getRanks`, the nested append loops of `newDeck`). See
  `cards.dfy`, module `Cards`. The ordered deck runs suits outer (♠ ♥ ♦ ♣) and ranks inner
  (2 … 10 J Q K A). It has 52 cards, card `s * 13 + r` is suit `s` with rank `r`, and every
  suit×rank pair occurs exactly once.
- **The shuffle** (the swap loop of `newDeck`). See `shuffle.dfy`, module `Shuffle`. The value
  `rand.Intn(i + 1)` becomes an explicit input: a sequence of draws with the draw for position `i`
  in `[0, i]`. Whatever the draws, every swap stays inside the slice and the result is a
  permutation of the ordered deck. So it is again a full deck with no duplicates and no omissions.
  The loop is modelled twice: as a method over an array, and as a recursive reference function.
  The two are proved equal.
- **`connector.Connect`**. See `connector.dfy`, module `Connector`. Its four collaborators are
  function-valued fields of a `Connector` value: the usage tracker, the ProviderConfig lookup, the
  credential extractor and `newServiceFn`. `Connect` returns its result and a trace of the
  collaborator calls it made. The contract states four things:
  - a resource that is not a Deck is rejected before any collaborator runs;
  - the calls happen in the fixed order;
  - nothing runs after a failure, and the first failure is reported wrapped with its own message;
  - on success the client holds exactly the service built from the extracted credentials.
- **The mock external client** (`Observe`, `Create`, `Update`, `Delete`). See `external.dfy`,
  module `External`. In Go the Deck is changed in place. Here each operation returns
  the resource as it stands afterwards, next to its result.

Supporting modules:

- `results.dfy`: Go's `(value, error)` and lone-`error` returns.
- `multisets.dfy`: duplicate-freedom versus multiset multiplicities.
- `deck_types.dfy`: the records of `apis/deck/v1alpha1/deck_types.go`, plus a `Managed` sum type
  for "a Deck or some other managed resource".
- `deck_errors.dfy`: the error constants and the `errors.Wrap` message shape `context: cause`.

Points of the code worth stating plainly, because a reader might expect otherwise:

- `Connect` checks the resource's kind first. It returns `errNotDeck` before tracking usage or
  calling any other collaborator (deck.go:99-102).
- `Update` and `Delete` are no-ops that succeed on any Deck. `Delete` therefore also succeeds when
  there is nothing to delete (deck.go:182-206).
- The four `Connect` failures are told apart only by their wrap messages: `errTrackPCUsage`,
  `errGetPC`, `errGetCreds` and `errNewClient` (deck.go:44-51).
- `Observe` never regenerates the deck. Only `Create` writes the cards (deck.go:137, 143-145, 171).

## Model

| member | source | states |
|---|---|---|
| Cards.Suits | internal/controller/deck/deck.go:208-210 | There are four suits, all distinct. |
| Cards.Ranks | internal/controller/deck/deck.go:212-214 | There are thirteen ranks, all distinct. |
| Cards.BuildOrderedDeck | internal/controller/deck/deck.go:216-226 | The nested append loops (suits outer, ranks inner) build the ordered deck. It has 52 cards, card `s*13+r` is (suit s, rank r), and it is a full deck. |
| Cards.OrderedDeckLayout | internal/controller/deck/deck.go:216-226 | Before shuffling, the deck has length 52 and card `s*13+r` is `(getSuits()[s], getRanks()[r])` for every s < 4 and r < 13. |
| Cards.RowsMultiplicity | internal/controller/deck/deck.go:218-226 | With distinct suits and ranks, the nested loops produce every suit-rank pair exactly once and nothing else. |
| Cards.OrderedDeckIsFull | internal/controller/deck/deck.go:208-226 | The ordered deck is 52 cards with no duplicates, and a card is in it exactly when its suit and rank are standard. |
| Cards.FullDeckMultiplicity | internal/controller/deck/deck.go:216-237 | "52 distinct cards covering all 4×13 combinations" is the same as "52 cards in which each standard card occurs once and nothing else occurs". |
| Cards.PermutationOfFullDeck | internal/controller/deck/deck.go:230-237 | Rearranging a full deck, with the same multiset of cards, gives a full deck. |
| Shuffle.Swap | internal/controller/deck/deck.go:234 | Swapping two in-range entries exchanges them and leaves every other entry alone. |
| Shuffle.SwapPermutes | internal/controller/deck/deck.go:234 | One swap keeps the multiset of cards: no card is added or lost. |
| Shuffle.ShuffleFirst | internal/controller/deck/deck.go:232-235 | For draws with `0 <= j_i <= i`, each round's swap stays within the slice, and the deck keeps its length. |
| Shuffle.ShuffleFirstPermutes | internal/controller/deck/deck.go:232-235 | After any number of rounds of the swap loop, the cards have the same multiset as before. |
| Shuffle.ShuffleCards | internal/controller/deck/deck.go:232-235 | The in-place swap loop over an array, with draws in `[0, i]`, never indexes out of range. It yields the reference shuffle, which is a permutation of its input. |
| Shuffle.SwapInPlace | internal/controller/deck/deck.go:234 | Swaps two in-range array entries in place: afterwards the array equals `Swap` of the array before. |
| Shuffle.NewDeck | internal/controller/deck/deck.go:216-238 | newDeck returns a permutation of the ordered deck: 52 distinct cards covering all 4×13 combinations, whatever the draws. |
| Shuffle.FreshDeckIsFull | internal/controller/deck/deck.go:228-237 | For every valid draw sequence, the shuffled deck is a full deck and has the same multiset as the ordered deck. |
| Shuffle.IdentityDrawsKeepOrder | internal/controller/deck/deck.go:228-235 | Sanity check on the draw model, not a behaviour the code relies on: draws that always pick the current position leave the cards in factory order. |
| External.Observe | internal/controller/deck/deck.go:135-163 | On a Deck: reports the resource existing and up to date, with empty connection details and no error, and leaves the Deck unchanged. On anything else: `errNotDeck`. |
| External.Create | internal/controller/deck/deck.go:165-180 | On a Deck: succeeds with empty details and replaces the status cards with a full 52-card deck. Name, spec and conditions are unchanged. On anything else: `errNotDeck` and no change. |
| External.Update | internal/controller/deck/deck.go:182-195 | On a Deck: succeeds with empty details and no change. On anything else: `errNotDeck`. |
| External.Delete | internal/controller/deck/deck.go:197-206 | On a Deck: succeeds with no change. On anything else: `errNotDeck`. |
| External.CreateOverwritesCards | internal/controller/deck/deck.go:171 | Create's result does not depend on the cards the Deck held before: they are overwritten by the fresh deck for the draws. |
| External.ObserveAfterCreate | internal/controller/deck/deck.go:135-180 | Observing right after Create reports the resource existing and up to date, and keeps the created full deck. |
| External.UpdateIdempotent | internal/controller/deck/deck.go:182-195 | Updating twice gives the same details and resource as updating once. |
| External.DeleteIdempotent | internal/controller/deck/deck.go:197-206 | Deleting again after a successful delete succeeds. |
| External.NonDeckRejected | internal/controller/deck/deck.go:135-206 | All four operations reject a non-Deck with `errNotDeck` and leave it unchanged. |
| Connector.Connect | internal/controller/deck/deck.go:98-125 | A non-Deck gets `errNotDeck` and no collaborator is called. Otherwise the calls run in the order track, get ProviderConfig by the resource's reference, extract credentials, build service, and each call sees its predecessor's output. Nothing runs after a failure, and the first failure is returned wrapped with that step's message. Success happens exactly when all four calls succeed, and the client then holds the service built from the extracted bytes. |
| Connector.NewNoOpService | internal/controller/deck/deck.go:56-58 | `newNoOpService` succeeds for any credential bytes and returns the no-op service. |
| Connector.DeckConnector | internal/controller/deck/deck.go:70-73 | The connector Setup registers keeps the given tracker, getter and extractor. Its service constructor succeeds with the no-op service on every input. |
| DeckErrors.Error.Message | internal/controller/deck/deck.go:101-121 | `errNotDeck` is reported as its bare message. A wrapped failure reads as the step's context message, then `": "`, then the collaborator's cause. |
| Connector.ContextInjective | internal/controller/deck/deck.go:44-51 | The four wrap messages are pairwise different. |
| Connector.WrappedTextIdentifiesStep | internal/controller/deck/deck.go:44-51 | The text `context: cause` of a wrapped failure determines both the step whose message wraps it and the cause. |
| Connector.FailureIdentifiesStep | internal/controller/deck/deck.go:104-122 | Two failures with the same error text, the `err.Error()` string a caller sees, stopped at the same step and carry the same cause. |
| Connector.NoOpConnectFailsOnlyBeforeService | internal/controller/deck/deck.go:56-58 | With `newNoOpService`, Connect never fails with `errNewClient`. It succeeds exactly when tracking, the ProviderConfig lookup and credential extraction succeed. |

## Left out

- `Setup` (deck.go:61-83) is left out, apart from the connector it builds (deck.go:70-73), which `Connector.DeckConnector` models. The rest wires the controller into controller-runtime's manager, rate limiter and event recorder.
- The generic reconciliation engine is left out: the work queue, rate limiting and backoff, the Observe-then-branch policy, status persistence with optimistic concurrency, and requeueing. It lives in crossplane-runtime, controller-runtime and client-go, which are not part of this model.
- The usage tracker, the Kubernetes client's `Get` and `resource.CommonCredentialExtractor` are not part of this model. They appear only as opaque collaborators that succeed with a value or fail with a cause. The same holds for `newServiceFn`.
- `GetProviderConfigReference()` is modelled as a name that is always present, so a missing reference cannot be represented here. deck.go:109 would dereference nil only if the usage tracker let such a resource through, and the tracker is an opaque collaborator in this model.
- The `context.Context` argument and cancellation are left out. No modelled code inspects them.
- Seeding `math/rand` from the clock (deck.go:230-231) is left out. The draws are an input sequence, so how uniform the shuffle is remains out of scope.
- The `fmt.Printf` logging (deck.go:146, 173, 188, 203) is console output only and is left out.
- `AtProviderCards` and `Initialize` (deck.go:240-256) are left out. They refer to the undefined names `cr` and `errUpdateManaged`, so they do not compile. Nothing registers them: the only initializer line (deck.go:74) is a commented-out `NewNameAsExternalName`.
- The commented-out deck regeneration in `Observe` (deck.go:137, 143-145) is left out.
- `DeckParameters.Type` is kept as a field but has no behaviour, because no code reads it. Kubernetes object metadata, the Deck list type and scheme registration (deck_types.go:73-100) are left out.
- `errors.Wrap` also attaches a stack trace. Only its message (`context: cause`) is modelled.
