/**
 * The admin moderation page: the pending list, the loading flag and the per-product
 * busy flag `processingId`, with the requests the approve and reject buttons issue.
 * The page has no role gate; the backend decides who may moderate.
 * Each action is split at its `await`: Begin marks the product busy and builds the
 * request, Finish handles the outcome.
 */
module AdminPage {
  import opened Common
  import opened Http

  datatype VendorRef = VendorRef(name: string, id: string)

  /** A product as the pending endpoint returns it. */
  datatype PendingProduct = PendingProduct(
    id: string, title: string, description: string, price: real,
    image: string, quantity: int, status: Status, vendor: VendorRef)

  datatype Moderation = Approve | Reject

  /** How an approve or reject request ended. */
  datatype ActionOutcome =
    | Succeeded                            // response.ok
    | Refused(serverMessage: Option<string>) // a non-2xx reply with its JSON `message`, if any
    | Failed(errorMessage: string)          // fetch or response.json() threw

  const PendingPath: string := "/api/products/pending"
  const ApprovePrefix: string := "/api/products/approve/"
  const ProductPrefix: string := "/api/products/"

  /** The fixed text each action falls back to. */
  function DefaultMessage(action: Moderation): (m: string)
    ensures m != ""
    ensures action == Approve ==> m == "Failed to approve product"
    ensures action == Reject ==> m == "Failed to reject product"
  {
    match action
    case Approve => "Failed to approve product"
    case Reject => "Failed to reject product"
  }

  /** The request an action sends: approve is a PUT, reject a hard DELETE of the product. */
  function ModerationRequest(action: Moderation, base: string, productId: string,
                             storedToken: Option<string>): (r: Request<()>)
    ensures r.headers == [AuthHeader(storedToken)] && r.body.None?
    ensures action == Approve ==> r.verb == PUT && r.url == base + ApprovePrefix + productId
    ensures action == Reject ==> r.verb == DELETE && r.url == base + ProductPrefix + productId
  {
    match action
    case Approve => Request(PUT, base + ApprovePrefix + productId, [AuthHeader(storedToken)], None)
    case Reject => Request(DELETE, base + ProductPrefix + productId, [AuthHeader(storedToken)], None)
  }

  /** The product id can be read back from the end of either request's URL. */
  lemma ModerationTargetsProduct(action: Moderation, base: string, productId: string,
                                 storedToken: Option<string>)
    ensures var url := ModerationRequest(action, base, productId, storedToken).url;
      |url| >= |productId| && url[|url| - |productId|..] == productId
  {
  }

  /** Requests for different products go to different URLs. */
  lemma {:induction false} DistinctProductsDistinctUrls(action: Moderation, base: string, id1: string,
                                                        id2: string, storedToken: Option<string>)
    requires id1 != id2
    ensures ModerationRequest(action, base, id1, storedToken).url != ModerationRequest(action, base, id2, storedToken).url
  {
    var prefix := base + (if action == Approve then ApprovePrefix else ProductPrefix);
    assert ModerationRequest(action, base, id1, storedToken).url == prefix + id1;
    assert ModerationRequest(action, base, id2, storedToken).url == prefix + id2;
    assert (prefix + id1)[|prefix|..] == id1;
  }

  /**
   * The toast text of a failed action: the server's message, or the thrown error's, when
   * it is non-empty, otherwise the action's fixed text. None on success.
   */
  function FailureMessage(action: Moderation, outcome: ActionOutcome): (m: Option<string>)
    ensures m.None? <==> outcome.Succeeded?
    ensures m.Some? ==> m.value != ""
    ensures outcome.Refused? && outcome.serverMessage.Some? && outcome.serverMessage.value != "" ==>
      m == outcome.serverMessage
    ensures outcome.Refused? && (outcome.serverMessage.None? || outcome.serverMessage.value == "") ==>
      m == Some(DefaultMessage(action))
    ensures outcome.Failed? ==> m == Some(if outcome.errorMessage != "" then outcome.errorMessage else DefaultMessage(action))
  {
    match outcome
    case Succeeded => None
    case Refused(serverMessage) =>
      // `throw new Error(data.message || default)`, then `error.message || default`
      var thrown := if serverMessage.Some? && serverMessage.value != "" then serverMessage.value
                    else DefaultMessage(action);
      Some(if thrown != "" then thrown else DefaultMessage(action))
    case Failed(errorMessage) =>
      Some(if errorMessage != "" then errorMessage else DefaultMessage(action))
  }

  /** A refusal without a usable message reads the same as a thrown error without one. */
  lemma SilentFailuresShowDefault(action: Moderation, serverMessage: Option<string>)
    requires serverMessage.None? || serverMessage == Some("")
    ensures FailureMessage(action, Refused(serverMessage)) == FailureMessage(action, Failed(""))
    ensures FailureMessage(action, Refused(serverMessage)) == Some(DefaultMessage(action))
  {
  }

  datatype AdminView =
    | Spinner
    | NoPending
    | Cards(products: seq<PendingProduct>, busy: seq<bool>)

  /**
   * The page as rendered. `viewer` is read only by the greeting, so every session,
   * including none, sees the same page.
   */
  function Render(viewer: Option<User>, loading: bool, products: seq<PendingProduct>,
                  processingId: Option<string>): (v: AdminView)
    ensures v.Spinner? <==> loading
    ensures v.NoPending? <==> !loading && products == []
    ensures v.Cards? ==> v.products == products && |v.busy| == |products|
    ensures v.Cards? ==> forall i :: 0 <= i < |products| ==> (v.busy[i] <==> processingId == Some(products[i].id))
  {
    if loading then Spinner
    else if products == [] then NoPending
    else Cards(products, seq(|products|, i requires 0 <= i < |products| => processingId == Some(products[i].id)))
  }

  /** There is no role gate: every session sees the moderation page. */
  lemma NoRoleGate(s1: Option<User>, s2: Option<User>, loading: bool, products: seq<PendingProduct>,
                   processingId: Option<string>)
    ensures Render(s1, loading, products, processingId) == Render(s2, loading, products, processingId)
  {
  }

  /** The page's state. */
  class AdminDashboard {
    var products: seq<PendingProduct>
    var loading: bool
    var processingId: Option<string>

    constructor ()
      ensures products == [] && loading && processingId.None?
    {
      products := [];
      loading := true;
      processingId := None;
    }

    /** Both buttons of a product: `disabled={processingId === product._id}`. */
    predicate ButtonsDisabled(productId: string)
      reads this
      ensures ButtonsDisabled(productId) <==> processingId == Some(productId)
    {
      processingId == Some(productId)
    }

    /**
     * `fetchPendingProducts`: a successful response replaces the list by
     * `data.products || []`; loading ends whatever happens.
     */
    method FetchPendingProducts(base: string, storedToken: Option<string>,
                                reply: Reply<Option<seq<PendingProduct>>>)
      returns (request: Request<()>)
      modifies this
      ensures request == Request(GET, base + PendingPath, [AuthHeader(storedToken)], None)
      ensures reply.Ok? && reply.data.Some? ==> products == reply.data.value
      ensures reply.Ok? && reply.data.None? ==> products == []
      ensures !reply.Ok? ==> products == old(products)
      ensures !loading && processingId == old(processingId)
    {
      request := Request(GET, base + PendingPath, [AuthHeader(storedToken)], None);
      if reply.Ok? {
        products := if reply.data.Some? then reply.data.value else [];
      }
      loading := false;
    }

    /** The start of `handleApprove` or `handleReject`, up to the `await`. */
    method Begin(action: Moderation, productId: string, base: string, storedToken: Option<string>)
      returns (request: Request<()>)
      modifies this
      ensures request == ModerationRequest(action, base, productId, storedToken)
      ensures processingId == Some(productId) && ButtonsDisabled(productId)
      ensures products == old(products) && loading == old(loading)
    {
      processingId := Some(productId);
      request := ModerationRequest(action, base, productId, storedToken);
    }

    /**
     * The rest of the handler: the busy flag is cleared on every outcome, the list is
     * left alone (a success only asks for a refetch), and a failure yields its message.
     */
    method Finish(action: Moderation, outcome: ActionOutcome)
      returns (message: Option<string>, refetch: bool)
      modifies this
      ensures processingId.None? && forall id :: !ButtonsDisabled(id)
      ensures products == old(products) && loading == old(loading)
      ensures refetch <==> outcome.Succeeded?
      ensures message == FailureMessage(action, outcome)
    {
      refetch := outcome.Succeeded?;
      message := FailureMessage(action, outcome);
      processingId := None;
    }
  }

  /** At most one product is busy at a time: a second product's buttons stay enabled. */
  lemma AtMostOneBusy(d: AdminDashboard, id1: string, id2: string)
    requires id1 != id2 && d.ButtonsDisabled(id1)
    ensures !d.ButtonsDisabled(id2)
  {
  }

  /** A whole action: busy during the request, then no product busy, the list and loading flag unchanged. */
  method ModerateOnce(d: AdminDashboard, action: Moderation, productId: string, base: string,
                      storedToken: Option<string>, outcome: ActionOutcome)
    returns (busyDuring: bool, message: Option<string>, refetch: bool)
    modifies d
    ensures busyDuring
    ensures d.processingId.None? && d.products == old(d.products) && d.loading == old(d.loading)
    ensures refetch <==> outcome.Succeeded?
    ensures message == FailureMessage(action, outcome)
  {
    var _ := d.Begin(action, productId, base, storedToken);
    busyDuring := d.ButtonsDisabled(productId);
    message, refetch := d.Finish(action, outcome);
  }
}
