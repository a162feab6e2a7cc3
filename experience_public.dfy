/**
 * The public experience section: entries from the server, or the bundled ones
 * on failure, renumbered so that each has a numeric id for the timeline.
 */
module PublicExperience {
  import opened Wrappers
  import opened TokenStore
  import opened Api

  /**
   * An entry's `id` as JavaScript sees it: a string (server entries), a number
   * (bundled entries), or `undefined`/`null`.
   */
  datatype RawId = StringId(s: string) | NumberId(n: int) | NoId

  /** An entry before renumbering: its id and the rest of its fields. */
  datatype RawEntry = RawEntry(id: RawId, entry: ExperienceData)

  /** An entry after renumbering, as the timeline receives it. */
  datatype Numbered = Numbered(id: int, entry: ExperienceData)

  /** How a server entry's optional string id reads. */
  function FromServer(data: seq<ExperienceData>): (raw: seq<RawEntry>)
    ensures |raw| == |data|
    ensures forall i :: 0 <= i < |raw| ==> raw[i].entry == data[i]
    ensures forall i :: 0 <= i < |raw| ==> (raw[i].id.StringId? <==> data[i].id.Some?)
    ensures forall i :: 0 <= i < |raw| ==> !raw[i].id.NumberId?
  {
    seq(|data|, i requires 0 <= i < |data| =>
      RawEntry(if data[i].id.Some? then StringId(data[i].id.value) else NoId, data[i]))
  }

  /**
   * `typeof id === 'string' ? index + 1 : Number(id) || index + 1`: a string id
   * becomes the 1-based position, a non-zero number is kept, and zero,
   * `undefined` (NaN) and `null` (0) fall back to the position.
   */
  function NormalizedId(id: RawId, index: nat): (n: int)
    ensures n != 0
    ensures id.StringId? || id.NoId? ==> n == index + 1
    ensures id.NumberId? ==> n == (if id.n != 0 then id.n else index + 1)
  {
    match id
    case StringId(_) => index + 1
    case NumberId(v) => if v != 0 then v else index + 1
    case NoId => index + 1
  }

  /** The `map` over the entries: same length and order, every other field kept. */
  function Normalize(raw: seq<RawEntry>): (r: seq<Numbered>)
    ensures |r| == |raw|
    ensures forall i :: 0 <= i < |r| ==> r[i].entry == raw[i].entry && r[i].id == NormalizedId(raw[i].id, i)
  {
    seq(|raw|, i requires 0 <= i < |raw| => Numbered(NormalizedId(raw[i].id, i), raw[i].entry))
  }

  /** With string ids only, the ids become exactly 1..n, so they are distinct. */
  lemma StringIdsNumberedInOrder(raw: seq<RawEntry>)
    requires forall i :: 0 <= i < |raw| ==> raw[i].id.StringId?
    ensures forall i :: 0 <= i < |raw| ==> Normalize(raw)[i].id == i + 1
    ensures forall i, j :: 0 <= i < j < |raw| ==> Normalize(raw)[i].id != Normalize(raw)[j].id
  {
  }

  /**
   * Every server entry, with a string id or none, ends up numbered by its
   * position, so the ids the timeline receives are distinct.
   */
  lemma ServerEntriesNumberedInOrder(data: seq<ExperienceData>)
    ensures var r := Normalize(FromServer(data));
      |r| == |data| && forall i :: 0 <= i < |r| ==> r[i].id == i + 1 && r[i].entry == data[i]
    ensures var r := Normalize(FromServer(data));
      forall i, j :: 0 <= i < j < |r| ==> r[i].id != r[j].id
  {
    var r := Normalize(FromServer(data));
    forall i | 0 <= i < |r|
      ensures r[i].id == i + 1
    {
      assert FromServer(data)[i].id.StringId? || FromServer(data)[i].id.NoId?;
    }
  }

  /**
   * Numeric ids are not renumbered: entries carrying the same non-zero number
   * keep it wherever they stand, so the ids need not be distinct.
   */
  lemma NumericIdsCanCollide(raw: seq<RawEntry>, i: nat, j: nat, v: int)
    requires i < |raw| && j < |raw|
    requires v != 0 && raw[i].id == NumberId(v) && raw[j].id == NumberId(v)
    ensures Normalize(raw)[i].id == Normalize(raw)[j].id == v
  {
  }

  /** What the section shows. */
  datatype View = LoadingView | ErrorView(message: string) | TimelineView(entries: seq<Numbered>)

  /** `Experience`'s state, with the token store its request passes through and the bundled entries. */
  class Experience {
    const store: Storage
    const localData: seq<RawEntry>
    var experiences: seq<Numbered>
    var loading: bool
    var error: Option<string>
    var usingLocalData: bool

    constructor (store: Storage, localData: seq<RawEntry>)
      ensures this.store == store && this.localData == localData
      ensures experiences == [] && loading && error.None? && !usingLocalData
    {
      this.store := store;
      this.localData := localData;
      experiences := [];
      loading := true;
      error := None;
      usingLocalData := false;
    }

    /** `fetchExperiences` up to the `await`. */
    method StartFetch() returns (call: Call)
      modifies this
      ensures loading && call == GetAllCall(Experiences)
      ensures experiences == old(experiences) && error == old(error) && usingLocalData == old(usingLocalData)
    {
      loading := true;
      call := GetAllCall(Experiences);
    }

    /**
     * `fetchExperiences` after the `await`: the server's entries or, on failure,
     * the bundled ones, renumbered by the same rule. The error is only ever
     * cleared, so the error view cannot be reached.
     */
    method SettleFetch(reply: Settled<seq<ExperienceData>>)
      modifies this, store
      ensures reply.Fulfilled? ==> experiences == Normalize(FromServer(reply.value)) && error.None? && usingLocalData == old(usingLocalData)
      ensures reply.Rejected? ==> experiences == Normalize(localData) && error == old(error) && usingLocalData
      ensures !loading
      ensures store.items == StorageAfter(old(store.items), reply)
    {
      var result := InterceptResponse(store, reply);
      if result.Fulfilled? {
        experiences := Normalize(FromServer(result.value));
        error := None;
      } else {
        experiences := Normalize(localData);
        usingLocalData := true;
      }
      loading := false;
    }

    /**
     * The component's output: loading first, then the error, then the timeline.
     * The error view is unreachable: the constructor starts with no error and
     * `SettleFetch` only ever clears it, as the bundled entries replace a failed fetch.
     */
    function Render(): (v: View)
      reads this
      ensures loading ==> v == LoadingView
      ensures !loading && error.None? ==> v == TimelineView(experiences)
      ensures !loading && error.Some? && error.value != "" ==> v == ErrorView(error.value)
    {
      if loading then LoadingView
      else if error.Some? && error.value != "" then ErrorView(error.value)
      else TimelineView(experiences)
    }
  }
}
