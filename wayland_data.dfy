/**
 * Data offers of the Wayland data device: an offer is identified by the protocol id
 * of its `wl_data_offer`, ordered and compared by that id alone, and collects the
 * MIME types the compositor announces for it.
 */
module WaylandDataExchange {
  import opened Wrappers
  import opened Events

  /** A parsed MIME type; the parser is the `mime` crate, outside the model. */
  datatype Mime = Mime(essence: string)

  datatype Ordering = Less | Equal | Greater

  /** The events of a `wl_data_offer`; only `Offer` is handled. */
  datatype OfferEvent = Offer(mimeType: string) | SourceActions(actions: u32) | Action(action: u32)

  /** `u32::cmp`. */
  function CompareIds(a: u32, b: u32): (o: Ordering)
    ensures o == Less <==> a < b
    ensures o == Equal <==> a == b
    ensures o == Greater <==> a > b
  {
    if a < b then Less else if a == b then Equal else Greater
  }

  /** The ordering seen from the other side. */
  function Reverse(o: Ordering): Ordering
  {
    match o
    case Less => Greater
    case Equal => Equal
    case Greater => Less
  }

  class DataOffer {
    /** The protocol id of the underlying `wl_data_offer`. */
    const id: u32
    /** The MIME types announced so far, in arrival order (shared with the `Offer` handler). */
    var mimeTypes: seq<Mime>

    /** `DataOffer::from_wl`: a fresh offer with no MIME type yet. */
    constructor FromWl(id: u32)
      ensures this.id == id && mimeTypes == []
    {
      this.id := id;
      mimeTypes := [];
    }

    /**
     * The `Offer` handler: a MIME string that `parse` accepts is appended; one it
     * rejects is ignored, as are the other events.
     */
    method OnEvent(ev: OfferEvent, parse: string -> Option<Mime>)
      modifies this`mimeTypes
      ensures ev.Offer? && parse(ev.mimeType).Some? ==> mimeTypes == old(mimeTypes) + [parse(ev.mimeType).value]
      ensures !(ev.Offer? && parse(ev.mimeType).Some?) ==> mimeTypes == old(mimeTypes)
      ensures ev.Offer? ==> mimeTypes == old(mimeTypes) + Accepted([ev.mimeType], parse)
    {
      match ev {
        case Offer(mimeType) =>
          var parsed := parse(mimeType);
          if parsed.None? {
            return;
          }
          mimeTypes := mimeTypes + [parsed.value];
        case _ =>
      }
    }
  }

  /** The MIME list after a series of `Offer` strings: the accepted ones, in arrival order. */
  function Accepted(offers: seq<string>, parse: string -> Option<Mime>): (r: seq<Mime>)
    ensures |r| <= |offers|
  {
    if offers == [] then []
    else
      var last := parse(offers[|offers| - 1]);
      Accepted(offers[..|offers| - 1], parse) + (if last.Some? then [last.value] else [])
  }

  /**
   * One more `Offer` string extends the list by what `OnEvent` appends for it; so an
   * offer fresh from `FromWl` that has handled the strings `offers` holds `Accepted(offers, parse)`.
   */
  lemma AcceptedSnoc(offers: seq<string>, s: string, parse: string -> Option<Mime>)
    ensures Accepted(offers + [s], parse) == Accepted(offers, parse) + Accepted([s], parse)
  {
    assert (offers + [s])[..|offers + [s]| - 1] == offers;
    assert [s][..0] == [];
  }

  /** Each accepted MIME type comes from an offered string that parses to it. */
  lemma {:induction false} AcceptedComeFromOffers(offers: seq<string>, parse: string -> Option<Mime>, m: Mime)
    requires m in Accepted(offers, parse)
    ensures exists i :: 0 <= i < |offers| && parse(offers[i]) == Some(m)
    decreases |offers|
  {
    var init := offers[..|offers| - 1];
    var last := parse(offers[|offers| - 1]);
    if m in Accepted(init, parse) {
      AcceptedComeFromOffers(init, parse, m);
      var i :| 0 <= i < |init| && parse(init[i]) == Some(m);
      assert offers[i] == init[i];
    } else {
      assert last == Some(m);
    }
  }

  /** The ordering reads nothing but the two ids. */
  function Cmp(a: DataOffer, b: DataOffer): (o: Ordering)
    ensures o == Equal <==> Eq(a, b)
    ensures o == Less <==> a.id < b.id
  {
    CompareIds(a.id, b.id)
  }

  /** `partial_cmp` on the ids. */
  function PartialCmp(a: DataOffer, b: DataOffer): (o: Option<Ordering>)
    ensures o.Some?
  {
    Some(CompareIds(a.id, b.id))
  }

  function Eq(a: DataOffer, b: DataOffer): bool
  {
    a.id == b.id
  }

  /** `partial_cmp` agrees with `cmp`, as `Ord` requires. */
  lemma PartialCmpIsCmp(a: DataOffer, b: DataOffer)
    ensures PartialCmp(a, b) == Some(Cmp(a, b))
  {
  }

  /** `cmp` is a total order: antisymmetric and transitive, and equal exactly where `eq` holds. */
  lemma CmpIsTotalOrder(a: DataOffer, b: DataOffer, c: DataOffer)
    ensures Cmp(b, a) == Reverse(Cmp(a, b))
    ensures Cmp(a, b) == Equal <==> Eq(a, b)
    ensures Cmp(a, b) != Greater && Cmp(b, c) != Greater ==> Cmp(a, c) != Greater
    ensures Eq(a, b) && Eq(b, c) ==> Eq(a, c)
  {
  }
}
