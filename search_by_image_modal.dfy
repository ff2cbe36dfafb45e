/** The search-by-image modal: the quota gate in front of the file picker,
    the upload of the chosen picture, and the remaining-search display. */
module SearchByImageModal {
  import opened Wrappers
  import opened Plans

  /** The part of the reply that `updateUser` merges into the user. */
  datatype SubscriptionDetails = SubscriptionDetails(searchByImageCount: Option<int>)

  /** The outcome of `POST /api/user/searchbyimage`. `products` are the ids of
      the products found; `message` is the error body's `message`, if any. */
  datatype SearchReply =
    | Found(details: Option<SubscriptionDetails>, products: seq<string>)
    | Failed(message: Option<string>)

  /** What the modal asks of the page around it and of the server. */
  datatype ModalEvent =
    | Close
    | RequestLogin
    | OpenPicker
    | Upload(file: string, email: string)
    | SetProducts(products: seq<string>)

  const UpgradeMessage := "Please upgrade your plan!"
  const FallbackError := "Something went wrong"

  /** `err.response?.data?.message || 'Something went wrong'`: a missing or
      empty message falls back to the generic text. */
  function ErrorText(message: Option<string>): (r: string)
    ensures r != ""
    ensures message.Some? && message.value != "" ==> r == message.value
    ensures message.None? || message.value == "" ==> r == FallbackError
  {
    if message.Some? && message.value != "" then message.value else FallbackError
  }

  /** The user after `updateUser({subscriptionDetails})`. */
  function WithDetails(u: User, d: SubscriptionDetails): (r: User)
    ensures r.id == u.id && r.email == u.email && r.subscription == u.subscription
    ensures SearchesUsed(r) == d.searchByImageCount.GetOr(0)
  {
    u.(searchByImageCount := d.searchByImageCount)
  }

  /** The "Search left" figure, shown to free users only. */
  function RemainingShown(user: Option<User>): (r: Option<int>)
    ensures r.Some? <==> user.Some? && user.value.subscription == "free"
    ensures r.Some? ==> r.value == FreeImageSearches - SearchesUsed(user.value)
  {
    if user.Some? && user.value.subscription == "free" then Some(RemainingSearches(user.value)) else None
  }

  /** Whenever the figure is shown, the picker opens exactly when it is positive. */
  lemma PickerOpensIffSearchesLeft(user: Option<User>)
    requires RemainingShown(user).Some?
    ensures ImageSearchGateOf(user) == MayPick <==> RemainingShown(user).value > 0
  {
    GateAgreesWithDisplay(user.value);
  }

  class SearchByImage {
    /** The user held by the auth context. */
    var user: Option<User>
    var error: string
    var loading: bool
    /** The value of the hidden file input. */
    var pickerValue: string
    var log: seq<ModalEvent>

    constructor(user: Option<User>)
      ensures this.user == user && error == "" && !loading && pickerValue == "" && log == []
    {
      this.user := user;
      error := "";
      loading := false;
      pickerValue := "";
      log := [];
    }

    /** `imageSearchClick`: send a visitor to log in, stop a free user with no
        searches left, and open the picker for everyone else. */
    method ImageSearchClick()
      modifies this`error, this`log
      ensures user.None? ==> log == old(log) + [Close, RequestLogin] && error == old(error)
      ensures ImageSearchGateOf(user) == NeedsUpgrade ==> log == old(log) && error == UpgradeMessage
      ensures ImageSearchGateOf(user) == MayPick ==> log == old(log) + [OpenPicker] && error == old(error)
    {
      match ImageSearchGateOf(user)
      case NeedsLogin =>
        log := log + [Close, RequestLogin];
      case NeedsUpgrade =>
        error := UpgradeMessage;
      case MayPick =>
        log := log + [OpenPicker];
    }

    /** `handleImageChange`: nothing without a file and a user; otherwise
        upload, and on success merge the new quota into the user, hand the
        products to the page and close; on failure show the server's message
        or a fallback. The file input is emptied after every upload. */
    method HandleImageChange(file: Option<string>, reply: SearchReply)
      modifies this`user, this`error, this`loading, this`pickerValue, this`log
      ensures file.None? || old(user).None? ==>
        user == old(user) && error == old(error) && loading == old(loading)
        && log == old(log) && pickerValue == file.GetOr("")
      ensures file.Some? && old(user).Some? ==>
        && !loading && pickerValue == ""
        && (reply.Found? ==>
              && log == old(log) + [Upload(file.value, old(user).value.email), SetProducts(reply.products), Close]
              && error == old(error)
              && user == (if reply.details.Some? then Some(WithDetails(old(user).value, reply.details.value))
                          else old(user)))
        && (reply.Failed? ==>
              && log == old(log) + [Upload(file.value, old(user).value.email)]
              && error == ErrorText(reply.message)
              && user == old(user))
    {
      pickerValue := file.GetOr("");
      if file.None? || user.None? {
        return;
      }
      loading := true;
      log := log + [Upload(file.value, user.value.email)];
      match reply {
        case Found(details, products) =>
          if details.Some? {
            user := Some(WithDetails(user.value, details.value));
          }
          log := log + [SetProducts(products), Close];
        case Failed(message) =>
          error := ErrorText(message);
      }
      loading := false;
      pickerValue := "";
    }
  }
}
