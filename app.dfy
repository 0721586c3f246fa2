/** The request handlers of the laundry backend as transitions of one
    in-memory store. Each handler runs its existence and presence checks in
    the order the handler makes them, answers the first failing one with its
    own status code and leaves the store as it was, and otherwise makes its
    single change and answers with the changed or read row. */
module App {
  import opened Wrappers
  import opened Entities
  import opened Responses
  import opened Pricing
  import opened Ledger

  /** `k` is the position of the first session of machine `laundryId`. */
  predicate IsFirstSessionOf(sessions: seq<LaundryTime>, laundryId: nat, k: int)
  {
    && 0 <= k < |sessions|
    && sessions[k].laundryId == laundryId
    && forall j | 0 <= j < k :: sessions[j].laundryId != laundryId
  }

  class Store {
    var users: map<nat, User>
    var dorms: map<nat, Dorm>
    var laundries: map<nat, Laundry>
    /** The laundry-time table in insertion order; no handler deletes from it. */
    var sessions: seq<LaundryTime>
    /** The id the next inserted row of each table receives. */
    var nextUserId: nat
    var nextDormId: nat
    var nextLaundryId: nat

    /** Every row is stored under its own id, ids are handed out from 1
        upwards, and a machine's cost is the price of its type. */
    ghost predicate Valid()
      reads this
    {
      && 1 <= nextUserId && 1 <= nextDormId && 1 <= nextLaundryId
      && (forall id | id in users :: users[id].id == id && 1 <= id < nextUserId)
      && (forall id | id in dorms :: dorms[id].id == id && 1 <= id < nextDormId)
      && (forall id | id in laundries ::
            && laundries[id].id == id && 1 <= id < nextLaundryId
            && laundries[id].cost == CostFor(laundries[id].laundryType))
      && (forall i | 0 <= i < |sessions| :: sessions[i].id == i + 1)
    }

    /** An empty store. */
    constructor ()
      ensures Valid()
      ensures users == map[] && dorms == map[] && laundries == map[] && sessions == []
      ensures nextUserId == 1 && nextDormId == 1 && nextLaundryId == 1
    {
      users, dorms, laundries, sessions := map[], map[], map[], [];
      nextUserId, nextDormId, nextLaundryId := 1, 1, 1;
    }

    /** POST /api/users/: a name, then a netid, must be present; the balance defaults to 0. */
    method CreateUser(name: Option<string>, netid: Option<string>, balance: Option<int>)
      returns (r: Response)
      requires Valid()
      modifies this`users, this`nextUserId
      ensures Valid()
      ensures name.None? ==>
                r == Err(400, "Invalid input: User's name is not provided")
      ensures name.Some? && netid.None? ==>
                r == Err(400, "Invalid input: User's netid is not provided")
      ensures r.Err? ==> users == old(users) && nextUserId == old(nextUserId)
      ensures name.Some? && netid.Some? ==>
                var u := User(old(nextUserId), name.value, netid.value, balance.GetOr(0));
                && u.id !in old(users)
                && users == old(users)[u.id := u]
                && nextUserId == old(nextUserId) + 1
                && r == Ok(201, UserView(u))
    {
      if name.None? {
        return FailureResponse("Invalid input: User's name is not provided", 400);
      }
      if netid.None? {
        return FailureResponse("Invalid input: User's netid is not provided", 400);
      }
      var u := User(nextUserId, name.value, netid.value, balance.GetOr(0));
      users := users[u.id := u];
      nextUserId := nextUserId + 1;
      r := SuccessResponse(UserView(u), 201);
    }

    /** GET /api/users/<id>/. */
    method GetUser(userId: nat) returns (r: Response)
      ensures userId in users ==> r == Ok(200, UserView(users[userId]))
      ensures userId !in users ==> r == Err(404, "User not found")
    {
      if userId !in users {
        return FailureResponse("User not found");
      }
      r := SuccessResponse(UserView(users[userId]));
    }

    /** DELETE /api/users/<id>/: removes the row and answers with it. The
        user's sessions stay in the laundry-time table. */
    method DeleteUser(userId: nat) returns (r: Response)
      requires Valid()
      modifies this`users
      ensures Valid()
      ensures userId !in old(users) ==> r == Err(404, "User not found") && users == old(users)
      ensures userId in old(users) ==>
                && r == Ok(200, UserView(old(users)[userId]))
                && users == old(users) - {userId}
    {
      if userId !in users {
        return FailureResponse("User not found");
      }
      var x := users[userId];
      users := users - {userId};
      r := SuccessResponse(UserView(x));
    }

    /** POST /api/dorms/: the dorm's name must be present. */
    method CreateDorm(name: Option<string>) returns (r: Response)
      requires Valid()
      modifies this`dorms, this`nextDormId
      ensures Valid()
      ensures name.None? ==>
                && r == Err(400, "Invalid input: Dorm's name is not provided")
                && dorms == old(dorms) && nextDormId == old(nextDormId)
      ensures name.Some? ==>
                var d := Dorm(old(nextDormId), name.value);
                && d.id !in old(dorms)
                && dorms == old(dorms)[d.id := d]
                && nextDormId == old(nextDormId) + 1
                && r == Ok(201, DormView(d))
    {
      if name.None? {
        return FailureResponse("Invalid input: Dorm's name is not provided", 400);
      }
      var d := Dorm(nextDormId, name.value);
      dorms := dorms[d.id := d];
      nextDormId := nextDormId + 1;
      r := SuccessResponse(DormView(d), 201);
    }

    /** GET /api/dorms/<id>/. */
    method GetDorm(dormId: nat) returns (r: Response)
      ensures dormId in dorms ==> r == Ok(200, DormView(dorms[dormId]))
      ensures dormId !in dorms ==> r == Err(404, "Dorm not found")
    {
      if dormId !in dorms {
        return FailureResponse("Dorm not found");
      }
      r := SuccessResponse(DormView(dorms[dormId]));
    }

    /** DELETE /api/dorms/<id>/: removes the row and answers with it. The
        dorm's machines stay in the laundries table. */
    method DeleteDorm(dormId: nat) returns (r: Response)
      requires Valid()
      modifies this`dorms
      ensures Valid()
      ensures dormId !in old(dorms) ==> r == Err(404, "Dorm not found") && dorms == old(dorms)
      ensures dormId in old(dorms) ==>
                && r == Ok(200, DormView(old(dorms)[dormId]))
                && dorms == old(dorms) - {dormId}
    {
      if dormId !in dorms {
        return FailureResponse("Dorm not found");
      }
      var x := dorms[dormId];
      dorms := dorms - {dormId};
      r := SuccessResponse(DormView(x));
    }

    /** POST /api/users/<user_id>/<laundry_id>/add/: reserve a machine. The
        user must exist, then the machine, then a duration must be given, and
        only then is the balance compared with the machine's cost. On success
        the cost is debited and exactly one session is appended; on any
        failure the store is left as it was. */
    method AddLaundryToUser(userId: nat, laundryId: nat, duration: Option<int>)
      returns (r: Response)
      requires Valid()
      modifies this`users, this`sessions
      ensures Valid()
      ensures userId !in old(users) ==> r == Err(404, "User not found")
      ensures userId in old(users) && laundryId !in laundries ==>
                r == Err(404, "Laundry not found")
      ensures userId in old(users) && laundryId in laundries && duration.None? ==>
                r == Err(400, "Invalid input: Laundry's duration is not provided")
      ensures userId in old(users) && laundryId in laundries && duration.Some?
              && old(users)[userId].balance < laundries[laundryId].cost ==>
                r == Err(403, "Laundry's cost exceeds user's current balance")
      ensures r.Err? ==> users == old(users) && sessions == old(sessions)
      ensures r.Ok? <==>
                && userId in old(users) && laundryId in laundries && duration.Some?
                && old(users)[userId].balance >= laundries[laundryId].cost
      ensures r.Ok? ==>
                var u := old(users)[userId];
                var t := LaundryTime(|old(sessions)| + 1, laundryId, userId, duration.value);
                && users == old(users)[userId := u.(balance := u.balance - laundries[laundryId].cost)]
                && sessions == old(sessions) + [t]
                && r == Ok(201, SessionView(t))
      ensures r.Ok? ==> users[userId].balance >= 0
    {
      if userId !in users {
        return FailureResponse("User not found");
      }
      var user := users[userId];
      if laundryId !in laundries {
        return FailureResponse("Laundry not found");
      }
      var laundry := laundries[laundryId];
      if duration.None? {
        return FailureResponse("Invalid input: Laundry's duration is not provided", 400);
      }
      if user.balance < laundry.cost {
        return FailureResponse("Laundry's cost exceeds user's current balance", 403);
      }
      users := users[userId := user.(balance := user.balance - laundry.cost)];
      var t := LaundryTime(|sessions| + 1, laundryId, userId, duration.value);
      sessions := sessions + [t];
      r := SuccessResponse(SessionView(t), 201);
    }

    /** GET /api/laundry/<id>/: the machine itself when it has no sessions,
        otherwise its first session in insertion order. */
    method GetLaundryForUser(laundryId: nat) returns (r: Response)
      ensures laundryId !in laundries ==> r == Err(404, "Laundry not found")
      ensures laundryId in laundries && (forall i | 0 <= i < |sessions| :: sessions[i].laundryId != laundryId) ==>
                r == Ok(200, LaundryView(laundries[laundryId]))
      ensures laundryId in laundries ==>
                forall k | IsFirstSessionOf(sessions, laundryId, k) :: r == Ok(200, SessionView(sessions[k]))
    {
      if laundryId !in laundries {
        return FailureResponse("Laundry not found");
      }
      var i := 0;
      while i < |sessions| && sessions[i].laundryId != laundryId
        invariant 0 <= i <= |sessions|
        invariant forall j | 0 <= j < i :: sessions[j].laundryId != laundryId
      {
        i := i + 1;
      }
      if i == |sessions| {
        r := SuccessResponse(LaundryView(laundries[laundryId]));
      } else {
        r := SuccessResponse(SessionView(sessions[i]));
      }
    }

    /** POST /api/laundries/<dorm_id>/: the dorm must exist, then a machine
        number, then a type must be given; the cost comes from the type. */
    method CreateALaundry(dormId: nat, number: Option<int>, laundryType: Option<string>)
      returns (r: Response)
      requires Valid()
      modifies this`laundries, this`nextLaundryId
      ensures Valid()
      ensures dormId !in dorms ==> r == Err(404, "Dorm not found")
      ensures dormId in dorms && number.None? ==>
                r == Err(400, "Invalid input: Laundry's number is not provided")
      ensures dormId in dorms && number.Some? && laundryType.None? ==>
                r == Err(400, "Invalid input: Laundry's type is not provided")
      ensures r.Err? ==> laundries == old(laundries) && nextLaundryId == old(nextLaundryId)
      ensures dormId in dorms && number.Some? && laundryType.Some? ==>
                var l := Laundry(old(nextLaundryId), dormId, number.value, laundryType.value,
                                 if laundryType.value == "washer" then WasherCost else DryerCost);
                && l.id !in old(laundries)
                && laundries == old(laundries)[l.id := l]
                && nextLaundryId == old(nextLaundryId) + 1
                && r == Ok(201, LaundryView(l))
    {
      if dormId !in dorms {
        return FailureResponse("Dorm not found");
      }
      if number.None? {
        return FailureResponse("Invalid input: Laundry's number is not provided", 400);
      }
      if laundryType.None? {
        return FailureResponse("Invalid input: Laundry's type is not provided", 400);
      }
      var cost := CostFor(laundryType.value);
      var l := Laundry(nextLaundryId, dormId, number.value, laundryType.value, cost);
      laundries := laundries[l.id := l];
      nextLaundryId := nextLaundryId + 1;
      r := SuccessResponse(LaundryView(l), 201);
    }

    /** POST /api/users/<user_id>/transactions/: the user must exist, then an
        amount must be given; the signed amount is added to the balance with
        no floor, and no other user changes. */
    method CreateTransaction(userId: nat, amount: Option<int>) returns (r: Response)
      requires Valid()
      modifies this`users
      ensures Valid()
      ensures userId !in old(users) ==> r == Err(404, "User not found")
      ensures userId in old(users) && amount.None? ==>
                r == Err(400, "Invalid input: Amount is not provided")
      ensures r.Err? ==> users == old(users)
      ensures userId in old(users) && amount.Some? ==>
                && users == old(users)[userId := Credited(old(users)[userId], amount.value)]
                && r == Ok(201, UserView(users[userId]))
    {
      if userId !in users {
        return FailureResponse("User not found");
      }
      if amount.None? {
        return FailureResponse("Invalid input: Amount is not provided", 400);
      }
      users := users[userId := Credited(users[userId], amount.value)];
      r := SuccessResponse(UserView(users[userId]), 201);
    }
  }
}
