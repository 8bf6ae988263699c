/** The controller's error messages and the shape of the errors it returns. */
module DeckErrors {

  const ErrNotDeck := "managed resource is not a Deck custom resource"
  const ErrTrackPCUsage := "cannot track ProviderConfig usage"
  const ErrGetPC := "cannot get ProviderConfig"
  const ErrGetCreds := "cannot get credentials"
  const ErrNewClient := "cannot create new Service"

  /**
   * An error returned by the controller: the bare "not a Deck" error, or a
   * collaborator's failure `cause` wrapped with a `context` message.
   */
  datatype Error = NotDeck | Wrapped(context: string, cause: string) {

    /** The text of the error, with a wrapped error rendered as "context: cause". */
    function Message(): (m: string)
      ensures NotDeck? ==> m == ErrNotDeck
      ensures Wrapped? ==> |m| == |context| + 2 + |cause|
      ensures Wrapped? ==> |m| >= |context| + 2 && m[..|context|] == context && m[|context| + 2..] == cause
      ensures Wrapped? ==> m[|context|..|context| + 2] == ": "
    {
      match this
      case NotDeck => ErrNotDeck
      case Wrapped(ctx, c) => ctx + ": " + c
    }
  }
}
