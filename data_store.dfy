/** The in-memory store shared by every service (services/dataStore.js).
    Loading the JSON fixtures and `persist()` are file I/O and not modelled;
    users are read-only. */
module DataStore {
  import opened Models

  /** A snapshot of the store's three collections. */
  datatype Db = Db(users: seq<User>, subscriptions: seq<Subscription>, payments: seq<Payment>)

  class Store {
    const users: seq<User>
    var subscriptions: seq<Subscription>
    var payments: seq<Payment>

    constructor (initial: Db)
      ensures State() == initial
    {
      users := initial.users;
      subscriptions := initial.subscriptions;
      payments := initial.payments;
    }

    /** The current contents of the store. */
    function State(): (db: Db)
      reads this
      ensures db.users == users && db.subscriptions == subscriptions && db.payments == payments
    {
      Db(users, subscriptions, payments)
    }
  }
}
