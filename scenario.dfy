/** Clients of the store: sessions of requests whose every answer follows
    from the handlers' contracts alone. */
module Scenario {
  import opened Wrappers
  import opened Entities
  import opened Responses
  import opened Ledger
  import opened App

  /** A dorm, a washer in it and a user with 2.00: the first reservation
      leaves 0.25, the second is refused for insufficient funds and changes
      nothing. */
  method ReserveTwice()
  {
    var store := new Store();
    var r := store.CreateDorm(Some("North"));
    assert r == Ok(201, DormView(Dorm(1, "North")));
    r := store.CreateALaundry(1, Some(3), Some("washer"));
    assert store.laundries == map[1 := Laundry(1, 1, 3, "washer", 175)];
    r := store.CreateUser(Some("A"), Some("a1"), Some(200));
    assert store.users == map[1 := User(1, "A", "a1", 200)];
    assert store.sessions == [];

    r := store.AddLaundryToUser(1, 1, Some(10));
    assert r == Ok(201, SessionView(LaundryTime(1, 1, 1, 10)));
    assert store.users == map[1 := User(1, "A", "a1", 25)];

    r := store.AddLaundryToUser(1, 1, Some(10));
    assert r.code == 403;
    assert store.users[1].balance == 25 && |store.sessions| == 1;
  }

  /** A machine typed "Washer" is priced as a dryer; it reads as itself
      until a reservation, and as that session afterwards. */
  method ReadMachineThenSession()
  {
    var store := new Store();
    var r := store.CreateDorm(Some("South"));
    assert 1 in store.dorms;
    r := store.CreateALaundry(1, Some(7), Some("Washer"));
    assert "Washer" != "washer";
    assert store.laundries == map[1 := Laundry(1, 1, 7, "Washer", 130)];
    r := store.CreateUser(Some("D"), Some("d4"), Some(130));
    assert store.users == map[1 := User(1, "D", "d4", 130)];

    r := store.GetLaundryForUser(1);
    assert r == Ok(200, LaundryView(Laundry(1, 1, 7, "Washer", 130)));

    r := store.AddLaundryToUser(1, 1, Some(45));
    assert store.users[1].balance == 0;
    r := store.GetLaundryForUser(1);
    assert IsFirstSessionOf(store.sessions, 1, 0);
    assert r == Ok(200, SessionView(LaundryTime(1, 1, 1, 45)));
  }

  /** Transactions of 5, -3 and 2 cents on a user with no balance given
      add 4 cents; a withdrawal larger than the balance takes it below zero. */
  method TransactWithoutFloor()
  {
    var store := new Store();
    var r := store.CreateUser(Some("B"), Some("b2"), None);
    assert store.users[1].balance == 0;

    r := store.CreateTransaction(1, Some(5));
    r := store.CreateTransaction(1, Some(-3));
    r := store.CreateTransaction(1, Some(2));
    assert store.users[1].balance == 4;

    r := store.CreateTransaction(1, Some(-10));
    assert r.code == 201 && store.users[1].balance == -6;
  }

  /** Two transactions made through the endpoint leave the user exactly as
      the run of those amounts in `Ledger` does, and so as the same amounts
      made in the other order would. */
  method TransactionsFollowLedger(a: int, b: int)
  {
    var store := new Store();
    var r := store.CreateUser(Some("E"), Some("e5"), Some(100));
    ghost var u := store.users[1];

    r := store.CreateTransaction(1, Some(a));
    r := store.CreateTransaction(1, Some(b));
    ghost var v := Credited(u, a);
    ghost var w := Credited(v, b);
    assert store.users[1] == w;

    assert [a, b][1..] == [b] && [b][1..] == [];
    assert AfterTransactions(w, []) == w;
    assert AfterTransactions(v, [b]) == w;
    assert AfterTransactions(u, [a, b]) == w;

    TransactionOrderIrrelevant(u, [a, b], [b, a]);
    assert store.users[1] == AfterTransactions(u, [b, a]);
  }

  /** A deleted user is no longer found, and a transaction on it is refused. */
  method DeleteThenRead()
  {
    var store := new Store();
    var r := store.CreateUser(Some("C"), Some("c3"), Some(-50));
    r := store.DeleteUser(1);
    assert r == Ok(200, UserView(User(1, "C", "c3", -50)));
    r := store.GetUser(1);
    assert r == Err(404, "User not found");
    r := store.CreateTransaction(1, Some(100));
    assert r.code == 404 && store.users == map[];
  }
}
