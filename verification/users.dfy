/**
 * The user endpoint (netlify/functions/users.js): the generic store over
 * user records, seeded with three accounts, whose create hook keeps the
 * body's fields as they are (`{...body, id: newId}`).
 */
module Users {
  import opened Collection
  import opened Http
  import opened CrudStore

  /** A user's fields besides its id; the password is stored in plain text. */
  datatype UserData = UserData(name: string, username: string, password: string, role: string)

  /**
   * `DEFAULT_USERS`: three accounts with ids 1, 2 and 3 and distinct user
   * names, of which the first is the only administrator.
   */
  function DefaultUsers(): (r: seq<Record<UserData>>)
    ensures |r| == 3 && forall k :: 0 <= k < |r| ==> r[k].id == k + 1
    ensures forall i, j :: 0 <= i < j < |r| ==> r[i].data.username != r[j].data.username
    ensures forall k :: 0 <= k < |r| ==> (r[k].data.role == "admin" <==> k == 0)
  {
    [ Record(1, UserData("Administrator", "admin", "admin123", "admin")),
      Record(2, UserData("Max Mustermann", "max", "max123", "user")),
      Record(3, UserData("Anna Schmidt", "anna", "anna123", "user")) ]
  }

  /** The user create hook: only the id is overridden, every other body field is kept. */
  function KeepFields(d: UserData): (r: UserData)
    ensures r.name == d.name && r.username == d.username
    ensures r.password == d.password && r.role == d.role
  {
    d
  }

  /** The user endpoint over a backing file in the given state. */
  method NewUserStore(file: Option<seq<Record<UserData>>>) returns (store: Store<UserData>)
    ensures fresh(store)
    ensures store.entity == "User" && store.seed == DefaultUsers() && store.stamp == KeepFields
    ensures store.file == file
    ensures file.None? ==> store.Valid()
  {
    store := new Store("User", DefaultUsers(), KeepFields, file);
    DefaultUsersSeed();
  }

  /** The seed has the unique ids 1, 2 and 3, so the first user created gets id 4. */
  lemma DefaultUsersSeed()
    ensures Ids(DefaultUsers()) == [1, 2, 3]
    ensures UniqueIds(DefaultUsers())
    ensures NewId(DefaultUsers()) == 4
  {
    assert MaxId(DefaultUsers()[2..]) == 3;
    assert MaxId(DefaultUsers()[1..]) == 3;
  }

  /**
   * A fresh deployment (no data file): listing yields the three seeded users,
   * and the first user created gets id 4 whatever id its body carried.
   */
  method FreshDeployment(newcomer: UserData, claimedId: Option<int>)
    returns (listed: Response<UserData>, created: Response<UserData>)
    ensures listed == Response(200, List(DefaultUsers()))
    ensures created == Response(201, One(Record(4, newcomer)))
  {
    var store := NewUserStore(None);
    DefaultUsersSeed();
    listed := store.Handle(Request(GET, NoBody, None));
    created := store.Handle(Request(POST, Parsed(Body(claimedId, newcomer)), None));
  }

  /**
   * On a fresh deployment, deleting user 2 succeeds and a later listing holds
   * users 1 and 3, unchanged and in their original order.
   */
  method DeleteScenario() returns (deleted: Response<UserData>, relisted: Response<UserData>)
    ensures deleted == Response(200, Success)
    ensures relisted == Response(200, List([DefaultUsers()[0], DefaultUsers()[2]]))
  {
    var store := NewUserStore(None);
    DeleteFromSeed();
    deleted := store.Handle(Request(DELETE, NoBody, Some(Number(2))));
    relisted := store.Handle(Request(GET, NoBody, None));
  }

  /** Filtering user 2 out of the seed keeps users 1 and 3, in order. */
  lemma DeleteFromSeed()
    ensures HasId(DefaultUsers(), 2)
    ensures Without(DefaultUsers(), 2) == [DefaultUsers()[0], DefaultUsers()[2]]
  {
    var admin, max, anna := DefaultUsers()[0], DefaultUsers()[1], DefaultUsers()[2];
    assert DefaultUsers() == [admin, max, anna];
    assert max.id == 2;
    assert [admin, max, anna][1..] == [max, anna];
    assert [max, anna][1..] == [anna];
    WithoutSingle(anna, 2);
  }

  /**
   * Deleting an id no user has is answered with 404, and a later listing
   * still yields the seeded users.
   */
  method UnknownDeleteScenario(id: int) returns (missing: Response<UserData>, relisted: Response<UserData>)
    requires id !in {1, 2, 3}
    ensures missing == Response(404, Error("User not found"))
    ensures relisted == Response(200, List(DefaultUsers()))
  {
    var store := NewUserStore(None);
    assert Ids(DefaultUsers()) == [1, 2, 3] by {
      DefaultUsersSeed();
    }
    assert !HasId(DefaultUsers(), id) by {
      forall k | 0 <= k < |DefaultUsers()| ensures DefaultUsers()[k].id != id {
        assert DefaultUsers()[k].id == Ids(DefaultUsers())[k];
      }
    }
    assert store.entity + " not found" == "User not found";
    missing := store.Handle(Request(DELETE, NoBody, Some(Number(id))));
    relisted := store.Handle(Request(GET, NoBody, None));
  }
}
