/** The records of the Deck API (apis/deck/v1alpha1) that the controller reads and writes. */
module DeckTypes {

  /** One octet of credential data. */
  newtype byte = x: int | 0 <= x < 256

  /** A playing card as stored in a Deck's observed status. */
  datatype DeckCard = DeckCard(suit: string, rank: string)

  /** The configurable fields of a Deck. `deckType` is documented but read by no code. */
  datatype DeckParameters = DeckParameters(deckType: string)

  /** The observable fields of a Deck: the cards the mock external system holds. */
  datatype DeckObservation = DeckObservation(cards: seq<DeckCard>)

  /** A status condition (Ready, Synced, ...) kept by the reconciler, never by this controller. */
  datatype Condition = Condition(kind: string, status: string, reason: string, message: string)

  /** Desired state: the name of the ProviderConfig to use and the Deck parameters. */
  datatype DeckSpec = DeckSpec(providerConfigRef: string, forProvider: DeckParameters)

  /** Observed state: the reconciler's conditions and the cards at the provider. */
  datatype DeckStatus = DeckStatus(conditions: seq<Condition>, atProvider: DeckObservation)

  /** A Deck managed resource (cluster scoped, identified by name). */
  datatype Deck = Deck(name: string, spec: DeckSpec, status: DeckStatus) {

    /** The cards recorded in the Deck's status. */
    function Cards(): seq<DeckCard> {
      status.atProvider.cards
    }

    /** This Deck with its observed cards replaced and everything else kept. */
    function WithCards(cards: seq<DeckCard>): (d: Deck)
      ensures d.Cards() == cards
      ensures SameExceptCards(this, d)
    {
      this.(status := status.(atProvider := DeckObservation(cards)))
    }
  }

  /** The two Decks agree on every field other than the observed cards. */
  predicate SameExceptCards(a: Deck, b: Deck) {
    a.name == b.name && a.spec == b.spec && a.status.conditions == b.status.conditions
  }

  /**
   * A managed resource as handed to the controller: either a Deck or a
   * resource of some other kind, which every operation must reject.
   */
  datatype Managed = DeckResource(deck: Deck) | OtherResource(kind: string)

  /** Where a ProviderConfig's credentials come from and how to select them. */
  datatype ProviderCredentials = ProviderCredentials(source: string, selector: string)

  /** A ProviderConfig: named, cluster scoped, holding a credentials descriptor. */
  datatype ProviderConfig = ProviderConfig(name: string, credentials: ProviderCredentials)
}
