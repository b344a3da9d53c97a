/** The services list: which view the screen shows, and the small display
    rules of each card (icon background, status label, fee label). */
module ServicesScreen {
  import opened Js
  import opened Types
  import ServicesSlice
  import ScreenView

  /** `colors.iconBg1` .. `colors.iconBg5`, in that order. */
  const IconColors: seq<string> := ["#E3F2FD", "#E8F5E9", "#F3E5F5", "#FFF3E0", "#FCE4EC"]

  /** `getIconBackground(index)`: the colour at `index % 5` with JavaScript's
      truncating `%`. A negative remainder is not an array index, so the lookup
      yields `undefined` (`None`); a negative multiple of 5 gives `-0`, which
      indexes the first colour. */
  function IconBackground(index: int): (c: Option<string>)
    ensures index >= 0 ==> c == Some(IconColors[index % 5])
    ensures c.Some? ==> c.value in IconColors
    ensures c.None? <==> index < 0 && index % 5 != 0
  {
    var r := Rem(index, |IconColors|);
    if r >= 0 then Some(IconColors[r]) else None
  }

  /** Cards `i` and `i + 5 * k` share their icon background. */
  lemma {:induction false} IconBackgroundCycles(i: int, k: nat)
    requires i >= 0
    ensures IconBackground(i + 5 * k) == IconBackground(i)
    decreases k
  {
    if k > 0 {
      IconBackgroundCycles(i, k - 1);
      assert (i + 5 * k) % 5 == (i + 5 * (k - 1)) % 5;
    }
  }

  /** The status label: 'Available' exactly when `serviceStatus === 1`. */
  function StatusLabel(service: Service): (text: string)
    ensures text == "Available" <==> service.serviceStatus == 1
    ensures text == "Busy" <==> service.serviceStatus != 1
  {
    if service.serviceStatus == 1 then "Available" else "Busy"
  }

  /** What the fee slot of a card shows. */
  datatype FeeLabel = Price(amount: real) | Free

  /** The fee is shown only when positive; zero and negative fees read
      'Free'. */
  function FeeLabelOf(service: Service): (fee: FeeLabel)
    ensures fee.Price? <==> service.serviceFees > 0.0
    ensures fee.Price? ==> fee.amount == service.serviceFees
  {
    if service.serviceFees > 0.0 then Price(service.serviceFees) else Free
  }

  /** One rendered card: the two names, the icon background, and the two
      labels. */
  datatype Card = Card(nameEn: string, nameAr: string, iconBackground: Option<string>,
                       status: string, fee: FeeLabel)

  /** The card `renderServiceItem` draws for the service at `index`. */
  function CardFor(service: Service, index: int): (card: Card)
    ensures card.nameEn == service.serviceName.en && card.nameAr == service.serviceName.ar
    ensures index >= 0 ==> card.iconBackground == Some(IconColors[index % 5])
    ensures card.status == "Available" <==> service.serviceStatus == 1
    ensures card.fee.Price? <==> service.serviceFees > 0.0
  {
    Card(service.serviceName.en, service.serviceName.ar, IconBackground(index),
         StatusLabel(service), FeeLabelOf(service))
  }

  /** The `FlatList`'s cards, one per service in list order. */
  function Cards(services: seq<Service>): (cards: seq<Card>)
    ensures |cards| == |services|
    ensures forall i | 0 <= i < |services| :: cards[i] == CardFor(services[i], i)
  {
    seq(|services|, i requires 0 <= i < |services| => CardFor(services[i], i))
  }

  /** What the screen shows. */
  datatype Screen = Skeleton | Failed(message: string) | List(cards: seq<Card>)

  /** The screen for a `services` state: the skeleton while the first fetch
      runs, the error view with retry when a fetch failed and nothing is
      listed, and otherwise the list, even alongside an error. */
  function Render(state: ServicesSlice.ServicesState): (screen: Screen)
    ensures screen == Skeleton <==> state.loading && state.services == []
    ensures screen.Failed? <==> !state.loading && state.services == [] && Truthy(state.error)
    ensures screen.Failed? ==> screen.message == state.error.value && screen.message != ""
    ensures state.services != [] ==> screen.List? && |screen.cards| == |state.services|
    ensures screen.List? ==> screen.cards == Cards(state.services)
  {
    match ScreenView.ChooseView(state.loading, state.error, |state.services|)
    case Skeleton => Skeleton
    case ErrorView(message) => Failed(message)
    case Content => List(Cards(state.services))
  }

  /** A successful refresh always leaves the list on screen, whatever was
      shown before. */
  lemma RefreshShowsList(s: ServicesSlice.ServicesState, services: seq<Service>)
    ensures Render(ServicesSlice.Reduce(s, ServicesSlice.FetchFulfilled(services))) == List(Cards(services))
  {
  }

  /** A failed refresh keeps a non-empty list on screen instead of the error
      view. */
  lemma FailedRefreshKeepsList(s: ServicesSlice.ServicesState, reason: string)
    requires s.services != []
    ensures Render(ServicesSlice.Reduce(s, ServicesSlice.FetchRejected(reason))) == List(Cards(s.services))
  {
  }
}
