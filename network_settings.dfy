/**
 * The admin's network settings screen (pages/admin/NetworkSettingsView.tsx):
 * editable market prices saved with a trend and a history point in one write
 * batch, and the announcement form with its delete confirmation.
 *
 * The price collection and each price's history sub-collection are modelled
 * as maps; a batch is applied all at once or not at all.
 */
module NetworkSettings {
  import opened Records
  import opened Seqs

  /** The trend recorded for a price change: up for a rise, down for a fall, stable otherwise. */
  function TrendOf(oldPrice: real, newPrice: real): (t: Trend)
    ensures t == Up <==> newPrice > oldPrice
    ensures t == Down <==> newPrice < oldPrice
    ensures t == Stable <==> newPrice == oldPrice
  {
    if newPrice > oldPrice then Up else if newPrice < oldPrice then Down else Stable
  }

  datatype PricePoint = PricePoint(date: string, price: real)

  /** The two writes of one save: the price document's new price and trend, and a new history entry. */
  datatype PriceBatch = PriceBatch(id: string, price: real, trend: Trend, point: PricePoint)

  /**
   * The guard and batch of `handleSavePrice`: nothing is written when the
   * price has no edited value or the edited value equals the current one.
   */
  function PriceSaveRequest(editable: map<string, real>, item: MarketPrice, date: string): (r: Option<PriceBatch>)
    ensures r.None? <==> item.id !in editable || editable[item.id] == item.price
    ensures r.Some? ==> r.value.id == item.id && r.value.price == editable[item.id]
    ensures r.Some? ==> r.value.point == PricePoint(date, editable[item.id])
    ensures r.Some? ==> r.value.trend == TrendOf(item.price, editable[item.id])
  {
    if item.id !in editable || editable[item.id] == item.price then None
    else
      var newPrice := editable[item.id];
      Some(PriceBatch(item.id, newPrice, TrendOf(item.price, newPrice), PricePoint(date, newPrice)))
  }

  /** A save that goes ahead always records a rise or a fall, never "stable". */
  lemma SavedTrendIsNeverStable(editable: map<string, real>, item: MarketPrice, date: string)
    requires PriceSaveRequest(editable, item, date).Some?
    ensures PriceSaveRequest(editable, item, date).value.trend != Stable
  {
  }

  datatype PriceStore = PriceStore(prices: map<string, MarketPrice>, history: map<string, seq<PricePoint>>)

  function HistoryOf(store: PriceStore, id: string): seq<PricePoint>
  {
    if id in store.history then store.history[id] else []
  }

  /**
   * `batch.commit()` for a price save: the update fails when the price
   * document does not exist, and then neither write happens.
   */
  function CommitPriceBatch(store: PriceStore, b: PriceBatch, reachable: bool): (r: Option<PriceStore>)
    ensures r.Some? <==> reachable && b.id in store.prices
    ensures r.Some? ==> r.value.prices == store.prices[b.id := store.prices[b.id].(price := b.price, trend := b.trend)]
    ensures r.Some? ==> r.value.history == store.history[b.id := HistoryOf(store, b.id) + [b.point]]
  {
    if !reachable || b.id !in store.prices then None
    else
      Some(PriceStore(
        store.prices[b.id := store.prices[b.id].(price := b.price, trend := b.trend)],
        store.history[b.id := HistoryOf(store, b.id) + [b.point]]))
  }

  /** Every price with a history shows the price of its latest history entry. */
  ghost predicate HistoryConsistent(store: PriceStore)
  {
    forall id :: id in store.prices && HistoryOf(store, id) != [] ==>
      HistoryOf(store, id)[|HistoryOf(store, id)| - 1].price == store.prices[id].price
  }

  /**
   * A committed save keeps every price in step with its history, appends
   * exactly one entry to the saved price's history and leaves every other
   * price and history as it was.
   */
  lemma CommitKeepsHistoryConsistent(store: PriceStore, editable: map<string, real>, item: MarketPrice,
                                     date: string, reachable: bool)
    requires HistoryConsistent(store)
    requires PriceSaveRequest(editable, item, date).Some?
    requires CommitPriceBatch(store, PriceSaveRequest(editable, item, date).value, reachable).Some?
    ensures var s' := CommitPriceBatch(store, PriceSaveRequest(editable, item, date).value, reachable).value;
            HistoryConsistent(s') &&
            HistoryOf(s', item.id) == HistoryOf(store, item.id) + [PricePoint(date, editable[item.id])] &&
            s'.prices[item.id].price == editable[item.id] &&
            (forall id :: id != item.id ==> HistoryOf(s', id) == HistoryOf(store, id)) &&
            (forall id :: id != item.id && id in store.prices ==> s'.prices[id] == store.prices[id])
  {
    var b := PriceSaveRequest(editable, item, date).value;
    var s' := CommitPriceBatch(store, b, reachable).value;
    forall id | id in s'.prices && HistoryOf(s', id) != []
      ensures HistoryOf(s', id)[|HistoryOf(s', id)| - 1].price == s'.prices[id].price
    {
      if id != item.id {
        assert HistoryOf(s', id) == HistoryOf(store, id);
      }
    }
  }

  /** When the screen shows the stored price, the recorded trend compares the new price with the stored one. */
  lemma TrendFollowsStoredPrice(store: PriceStore, editable: map<string, real>, item: MarketPrice,
                                date: string, reachable: bool)
    requires item.id in store.prices && store.prices[item.id] == item
    requires PriceSaveRequest(editable, item, date).Some?
    requires reachable
    ensures var s' := CommitPriceBatch(store, PriceSaveRequest(editable, item, date).value, reachable).value;
            (s'.prices[item.id].trend == Up <==> s'.prices[item.id].price > store.prices[item.id].price) &&
            (s'.prices[item.id].trend == Down <==> s'.prices[item.id].price < store.prices[item.id].price)
  {
  }

  function PriceId(p: MarketPrice): string
  {
    p.id
  }

  function PriceValue(p: MarketPrice): real
  {
    p.price
  }

  /**
   * The effect that seeds the editable prices: every price's id mapped to its
   * current price, assigned in list order.
   */
  method InitialPrices(marketPrices: seq<MarketPrice>) returns (initial: map<string, real>)
    ensures initial == ToMap(marketPrices, PriceId, PriceValue)
    ensures initial.Keys == set p | p in marketPrices :: p.id
  {
    initial := map[];
    var i := 0;
    while i < |marketPrices|
      invariant 0 <= i <= |marketPrices|
      invariant initial == ToMap(marketPrices[..i], PriceId, PriceValue)
    {
      assert marketPrices[..i + 1][..i] == marketPrices[..i];
      initial := initial[marketPrices[i].id := marketPrices[i].price];
      i := i + 1;
    }
    assert marketPrices[..i] == marketPrices;
  }

  /** Right after seeding, no price with a unique id can be saved: every edited value equals the current one. */
  lemma FreshPricesSaveNothing(marketPrices: seq<MarketPrice>, k: nat, date: string)
    requires k < |marketPrices|
    requires forall j :: 0 <= j < |marketPrices| && j != k ==> marketPrices[j].id != marketPrices[k].id
    ensures PriceSaveRequest(ToMap(marketPrices, PriceId, PriceValue), marketPrices[k], date).None?
  {
    ToMapLastWins(marketPrices, PriceId, PriceValue, k);
  }

  /** The title and body an announcement is posted with, plus the fixed author and the posting time. */
  datatype AnnouncementDraft = AnnouncementDraft(title: string, body: string, author: string, date: string)

  class SettingsScreen {
    var editablePrices: map<string, real>
    var isSavingPrice: Option<string>
    var newTitle: string
    var newBody: string
    var isSubmittingAnn: bool
    var showDeleteConfirm: bool
    var annToDelete: Option<string>

    /** Mounting, with the seeding effect already run on the price list. */
    constructor (marketPrices: seq<MarketPrice>)
      ensures editablePrices == ToMap(marketPrices, PriceId, PriceValue)
      ensures isSavingPrice == None && newTitle == "" && newBody == ""
      ensures !isSubmittingAnn && !showDeleteConfirm && annToDelete == None
    {
      var initial := InitialPrices(marketPrices);
      editablePrices := initial;
      isSavingPrice := None;
      newTitle := "";
      newBody := "";
      isSubmittingAnn := false;
      showDeleteConfirm := false;
      annToDelete := None;
    }

    /** A new price list re-runs the effect, discarding unsaved edits. */
    method PricesChanged(marketPrices: seq<MarketPrice>)
      modifies this`editablePrices
      ensures editablePrices == ToMap(marketPrices, PriceId, PriceValue)
    {
      editablePrices := InitialPrices(marketPrices);
    }

    /** `handlePriceChange`, with the typed text already converted to a number. */
    method PriceChange(id: string, value: real)
      modifies this`editablePrices
      ensures editablePrices == old(editablePrices)[id := value]
    {
      editablePrices := editablePrices[id := value];
    }

    /** `handleSavePrice` up to the commit: the batch to send, and the row marked as saving when there is one. */
    method BeginSavePrice(item: MarketPrice, date: string) returns (request: Option<PriceBatch>)
      modifies this`isSavingPrice
      ensures request == PriceSaveRequest(editablePrices, item, date)
      ensures request.None? ==> isSavingPrice == old(isSavingPrice)
      ensures request.Some? ==> isSavingPrice == Some(item.id)
    {
      request := PriceSaveRequest(editablePrices, item, date);
      if request.Some? {
        isSavingPrice := Some(item.id);
      }
    }

    /**
     * The rest of `handleSavePrice`: a failed commit puts the current price back
     * into the edit box; the saving mark is cleared either way.
     */
    method FinishSavePrice(item: MarketPrice, committed: bool)
      modifies this`editablePrices, this`isSavingPrice
      ensures committed ==> editablePrices == old(editablePrices)
      ensures !committed ==> editablePrices == old(editablePrices)[item.id := item.price]
      ensures isSavingPrice == None
    {
      if !committed {
        editablePrices := editablePrices[item.id := item.price];
      }
      isSavingPrice := None;
    }

    method SetTitle(title: string)
      modifies this`newTitle
      ensures newTitle == title
    {
      newTitle := title;
    }

    method SetBody(body: string)
      modifies this`newBody
      ensures newBody == body
    {
      newBody := body;
    }

    /**
     * `handleAddAnnouncement` up to the write: the document posted carries the
     * form and the fixed author. Both inputs are `required`, so the form is only
     * submitted with a title and a body.
     */
    method BeginAddAnnouncement(date: string) returns (draft: AnnouncementDraft)
      requires newTitle != "" && newBody != ""
      modifies this`isSubmittingAnn
      ensures draft == AnnouncementDraft(newTitle, newBody, "LCE Admin", date)
      ensures draft.title != "" && draft.body != ""
      ensures isSubmittingAnn
    {
      isSubmittingAnn := true;
      draft := AnnouncementDraft(newTitle, newBody, "LCE Admin", date);
    }

    /** The rest of `handleAddAnnouncement`: the form is cleared only after a successful write. */
    method FinishAddAnnouncement(succeeded: bool)
      modifies this`newTitle, this`newBody, this`isSubmittingAnn
      ensures succeeded ==> newTitle == "" && newBody == ""
      ensures !succeeded ==> newTitle == old(newTitle) && newBody == old(newBody)
      ensures !isSubmittingAnn
    {
      if succeeded {
        newTitle, newBody := "", "";
      }
      isSubmittingAnn := false;
    }

    method OpenDeleteConfirm(id: string)
      modifies this`annToDelete, this`showDeleteConfirm
      ensures annToDelete == Some(id) && showDeleteConfirm
    {
      annToDelete := Some(id);
      showDeleteConfirm := true;
    }

    /** The dialog's cancel: it closes and keeps its target. */
    method CancelDelete()
      modifies this`showDeleteConfirm
      ensures !showDeleteConfirm && annToDelete == old(annToDelete)
    {
      showDeleteConfirm := false;
    }

    /**
     * `handleDeleteAnnouncement`: without a target (none, or an empty id) nothing
     * happens; otherwise the document is removed when the store is reachable, and
     * the dialog closes and forgets its target whatever the outcome.
     */
    method DeleteAnnouncement(store: map<string, Announcement>, reachable: bool)
      returns (store': map<string, Announcement>)
      modifies this`annToDelete, this`showDeleteConfirm
      ensures (old(annToDelete) == None || old(annToDelete) == Some("")) ==>
                store' == store && annToDelete == old(annToDelete) && showDeleteConfirm == old(showDeleteConfirm)
      ensures old(annToDelete).Some? && old(annToDelete).value != "" ==>
                store' == (if reachable then store - {old(annToDelete).value} else store) &&
                annToDelete == None && !showDeleteConfirm
    {
      if annToDelete.None? || annToDelete.value == "" {
        return store;
      }
      store' := if reachable then store - {annToDelete.value} else store;
      showDeleteConfirm := false;
      annToDelete := None;
    }
  }
}
