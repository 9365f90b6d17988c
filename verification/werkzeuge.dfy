/**
 * The tool endpoint (netlify/functions/werkzeuge.js): the generic store over
 * tool records with lending state.  Its create hook forces the lending
 * fields so that a new tool is never created already borrowed; a replace
 * writes the client's record verbatim, lending fields included.
 */
module Tools {
  import opened Collection
  import opened Http
  import opened CrudStore

  /**
   * A tool's fields besides its id.  `None` stands for a JSON null or a
   * missing field; `borrowedDate` is an opaque ISO-8601 timestamp.
   */
  datatype ToolData = ToolData(
    name: string,
    owner: string,
    image: Option<string>,
    status: Option<string>,
    borrower: Option<string>,
    borrowedDate: Option<string>)

  /**
   * `DEFAULT_WERKZEUGE`; `now` is the `new Date().toISOString()` taken when
   * the module is loaded.
   */
  function DefaultTools(now: string): (r: seq<Record<ToolData>>)
    ensures |r| == 2 && forall k :: 0 <= k < |r| ==> r[k].id == k + 1
    ensures forall k :: 0 <= k < |r| ==>
      (r[k].data.status == Some("borrowed") <==> r[k].data.borrower.Some?) &&
      (r[k].data.borrower.Some? <==> r[k].data.borrowedDate.Some?)
    ensures r[1].data.borrowedDate == Some(now)
  {
    [ Record(1, ToolData("Bohrmaschine", "admin", None, Some("available"), None, None)),
      Record(2, ToolData("Hammer", "max", None, Some("borrowed"), Some("anna"), Some(now))) ]
  }

  /**
   * JavaScript truthiness of an optional string: of the values modelled, the
   * falsy ones are a missing or null field and the empty string.
   */
  function Truthy(s: Option<string>): (r: bool)
    ensures r <==> s != None && s != Some("")
  {
    s.Some? && s.value != ""
  }

  /**
   * The tool create hook: `status: body.status || 'available'`,
   * `borrower: null`, `borrowedDate: null`.
   */
  function ForceLending(d: ToolData): (r: ToolData)
    ensures r.borrower.None? && r.borrowedDate.None?
    ensures Truthy(r.status)
    ensures r.name == d.name && r.owner == d.owner && r.image == d.image
  {
    d.(status := if Truthy(d.status) then d.status else Some("available"),
       borrower := None,
       borrowedDate := None)
  }

  /**
   * A created tool is never borrowed and always has a non-empty status: the
   * client's status when it supplied a non-empty one, "available" otherwise.
   * Name, owner and image are the client's; forcing twice changes nothing.
   */
  lemma CreatedToolNotBorrowed(d: ToolData)
    ensures ForceLending(d).borrower.None? && ForceLending(d).borrowedDate.None?
    ensures Truthy(ForceLending(d).status)
    ensures Truthy(d.status) <==> ForceLending(d).status == d.status
    ensures !Truthy(d.status) ==> ForceLending(d).status == Some("available")
    ensures ForceLending(d).(status := d.status, borrower := d.borrower, borrowedDate := d.borrowedDate) == d
    ensures ForceLending(ForceLending(d)) == ForceLending(d)
  {
  }

  /** The tool endpoint over a backing file in the given state. */
  method NewToolStore(now: string, file: Option<seq<Record<ToolData>>>) returns (store: Store<ToolData>)
    ensures fresh(store)
    ensures store.entity == "Werkzeug" && store.seed == DefaultTools(now) && store.stamp == ForceLending
    ensures store.file == file
    ensures file.None? ==> store.Valid()
  {
    store := new Store("Werkzeug", DefaultTools(now), ForceLending, file);
    DefaultToolsSeed(now);
  }

  /** The seed has the unique ids 1 and 2, so the first tool created gets id 3. */
  lemma DefaultToolsSeed(now: string)
    ensures Ids(DefaultTools(now)) == [1, 2]
    ensures UniqueIds(DefaultTools(now))
    ensures NewId(DefaultTools(now)) == 3
  {
    assert MaxId(DefaultTools(now)[1..]) == 2;
  }

  /**
   * On a fresh deployment, creating "Saw" owned by max yields tool 3,
   * available and not lent; a replace of tool 1 that lends it to anna is
   * then returned and listed verbatim, and tool 2 and tool 3 are untouched.
   */
  method LendingScenario(now: string, lentAt: string)
    returns (created: Response<ToolData>, lent: Response<ToolData>, listed: Response<ToolData>)
    ensures created == Response(201, One(Record(3, ToolData("Saw", "max", None, Some("available"), None, None))))
    ensures lent == Response(200, One(Record(1, ToolData("Bohrmaschine", "admin", None, Some("borrowed"),
                                                          Some("anna"), Some(lentAt)))))
    ensures listed == Response(200, List([
      Record(1, ToolData("Bohrmaschine", "admin", None, Some("borrowed"), Some("anna"), Some(lentAt))),
      DefaultTools(now)[1],
      Record(3, ToolData("Saw", "max", None, Some("available"), None, None))]))
  {
    var store := NewToolStore(now, None);
    DefaultToolsSeed(now);
    var saw := ToolData("Saw", "max", None, None, Some("bob"), Some(lentAt));
    var sawStored := Record(3, ToolData("Saw", "max", None, Some("available"), None, None));
    created := store.Handle(Request(POST, Parsed(Body(None, saw)), None));
    assert ForceLending(saw) == sawStored.data;
    ghost var afterCreate := DefaultTools(now) + [sawStored];
    assert store.Contents() == afterCreate;
    var drill := ToolData("Bohrmaschine", "admin", None, Some("borrowed"), Some("anna"), Some(lentAt));
    assert afterCreate[0].id == 1;
    assert FindIndex(afterCreate, 1) == 0;
    lent := store.Handle(Request(PUT, Parsed(Body(Some(1), drill)), None));
    assert store.Contents() == afterCreate[0 := Record(1, drill)];
    assert afterCreate[0 := Record(1, drill)] == [Record(1, drill), DefaultTools(now)[1], sawStored];
    listed := store.Handle(Request(GET, NoBody, None));
  }
}
