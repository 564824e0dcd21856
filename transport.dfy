/** The transport selector: which delivery channel a posted message takes,
    and whether it is serialised to a string for that channel. */
module Transport {
  import opened Wrappers
  import opened Protocol

  /** The environment the selector probes: whether the mediator runs in a
      native shell, and which bridge objects the target window exposes. */
  datatype Bridges = Bridges(
    webview: bool,
    iosApp: bool,        // webkit.messageHandlers.desoIdentityAppInterface
    androidApp: bool,    // desoIdentityAppInterface
    reactNative: bool,   // ReactNativeWebView
    iosLegacy: bool,     // webkit.messageHandlers.bitcloutIdentityAppInterface
    androidLegacy: bool) // bitcloutIdentityAppInterface

  datatype Channel =
    | IosAppInterface | AndroidAppInterface | ReactNativeWebView
    | IosLegacyInterface | AndroidLegacyInterface
    | WindowPostMessage

  /** A message as it leaves through a channel; `serialized` tells whether it
      went as a JSON string rather than as a structured object. */
  datatype Delivery = Delivery(channel: Channel, serialized: bool, message: Message)

  /** Whether the bridge behind a channel exists; the window itself always
      does. */
  predicate Present(b: Bridges, c: Channel)
  {
    match c
    case IosAppInterface => b.iosApp
    case AndroidAppInterface => b.androidApp
    case ReactNativeWebView => b.reactNative
    case IosLegacyInterface => b.iosLegacy
    case AndroidLegacyInterface => b.androidLegacy
    case WindowPostMessage => true
  }

  /** The channels that take a JSON string rather than a structured object. */
  predicate Stringifies(c: Channel)
  {
    c == AndroidAppInterface || c == ReactNativeWebView || c == AndroidLegacyInterface
  }

  /** The bridges in the order the webview branch probes them. */
  function BridgeOrder(): seq<Channel>
  {
    [IosAppInterface, AndroidAppInterface, ReactNativeWebView, IosLegacyInterface, AndroidLegacyInterface]
  }

  /** The first present channel of `cs`: a reference "first match wins" over
      an ordered list of strategies. */
  function FirstPresent(b: Bridges, cs: seq<Channel>): (r: Option<nat>)
    ensures r.Some? ==> r.value < |cs| && Present(b, cs[r.value])
    ensures r.Some? ==> forall j | 0 <= j < r.value :: !Present(b, cs[j])
    ensures r.None? <==> forall j | 0 <= j < |cs| :: !Present(b, cs[j])
  {
    if |cs| == 0 then None
    else if Present(b, cs[0]) then Some(0)
    else match FirstPresent(b, cs[1..])
      case None => None
      case Some(k) => Some(k + 1)
  }

  /** The selection chain: outside a webview the window, structured; inside
      it the first bridge present, serialised as that bridge needs, or
      nothing at all when no bridge is present. */
  function SelectChannel(b: Bridges): (r: Option<(Channel, bool)>)
    ensures !b.webview ==> r == Some((WindowPostMessage, false))
    ensures r.Some? ==> Present(b, r.value.0) && r.value.1 == Stringifies(r.value.0)
    ensures r.None? <==>
      b.webview && !b.iosApp && !b.androidApp && !b.reactNative && !b.iosLegacy && !b.androidLegacy
  {
    if b.webview then
      if b.iosApp then Some((IosAppInterface, false))
      else if b.androidApp then Some((AndroidAppInterface, true))
      else if b.reactNative then Some((ReactNativeWebView, true))
      else if b.iosLegacy then Some((IosLegacyInterface, false))
      else if b.androidLegacy then Some((AndroidLegacyInterface, true))
      else None
    else Some((WindowPostMessage, false))
  }

  /** In a webview the chain picks exactly the first bridge of the probing
      order that is present. */
  lemma SelectionIsFirstMatch(b: Bridges)
    requires b.webview
    ensures SelectChannel(b).None? <==> FirstPresent(b, BridgeOrder()).None?
    ensures FirstPresent(b, BridgeOrder()).Some? ==>
      SelectChannel(b).Some? && SelectChannel(b).value.0 == BridgeOrder()[FirstPresent(b, BridgeOrder()).value]
  {
    var cs := BridgeOrder();
    var r := FirstPresent(b, cs);
    assert |cs| == 5 && cs[0] == IosAppInterface && cs[1] == AndroidAppInterface
      && cs[2] == ReactNativeWebView && cs[3] == IosLegacyInterface && cs[4] == AndroidLegacyInterface;
    if r.Some? {
      assert !Present(b, cs[0]) ==> r.value != 0;
      assert Present(b, cs[0]) ==> r.value == 0;
      assert Present(b, cs[1]) ==> r.value <= 1;
      assert Present(b, cs[2]) ==> r.value <= 2;
      assert Present(b, cs[3]) ==> r.value <= 3;
    }
  }

  /** Where one posted message goes, if anywhere. */
  function Route(b: Bridges, m: Message): Option<Delivery>
  {
    match SelectChannel(b)
    case None => None
    case Some((c, s)) => Some(Delivery(c, s, m))
  }

  /** What a sequence of posted messages delivers, in order. */
  function Delivered(b: Bridges, ms: seq<Message>): seq<Delivery>
  {
    if |ms| == 0 then []
    else Delivered(b, ms[..|ms| - 1]) + (match Route(b, ms[|ms| - 1]) case None => [] case Some(d) => [d])
  }

  /** Every post is one delivery attempt with no retry and no buffering: all
      messages go through the same channel in order, or, in a webview without
      a bridge, none does. "The same channel" holds because `b` is fixed here;
      the source probes the window's bridge objects again on every post, so
      a bridge that appears or vanishes between posts would change it. */
  lemma {:induction false} DeliveredAll(b: Bridges, ms: seq<Message>)
    ensures SelectChannel(b).None? ==> Delivered(b, ms) == []
    ensures SelectChannel(b).Some? ==>
      |Delivered(b, ms)| == |ms| &&
      forall i | 0 <= i < |ms| ::
        Delivered(b, ms)[i] == Delivery(SelectChannel(b).value.0, SelectChannel(b).value.1, ms[i])
  {
    if |ms| > 0 {
      DeliveredAll(b, ms[..|ms| - 1]);
    }
  }
}
