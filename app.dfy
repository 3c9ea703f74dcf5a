/** The application store of App.tsx: the catalogue, the order ledger, the accounts and the
    session, together with the two browser storage keys the app writes. */
module App {
  import opened Optional
  import opened Types
  import opened Strings
  import Seqs

  /** The seeded default account. */
  const InitialUser: UserProfile := UserProfile(
    "Spark User", Some("sparkuser"), "9876543210",
    "https://i.pravatar.cc/150?u=sparkuser", "spark@upi", Some("password123"))

  /** The saved payout accounts the app starts with. */
  const DefaultSavedAccounts: seq<SavedAccount> := [
    SavedAccount(1, "Customer A", "1112223330", "customera@upi"),
    SavedAccount(2, "Customer B", "4445556660", "customerb@upi")]

  /** The shared password that unlocks listing management. */
  const AdminPassword: string := "Cj@jaat11"
  const IncorrectPasswordMessage: string := "Incorrect password. Please try again."

  /** What reading and parsing the `spark-users` key yields: nothing stored (or the empty
      string), something that does not parse to an array, or a parsed array of records. */
  datatype StoredUsers = Absent | Unreadable | Stored(records: seq<UserProfile>)

  // ---------------------------------------------------------------------------
  // Loading the accounts

  /** `!u.username && u.phone`: the record has no (or an empty) username but has a phone. */
  predicate NeedsUsername(u: UserProfile)
  {
    (u.username == None || u.username == Some("")) && u.phone != ""
  }

  function MigrateUser(u: UserProfile): UserProfile
  {
    if NeedsUsername(u) then u.(username := Some(u.phone)) else u
  }

  /** The migration applied to every stored record. */
  function Migrate(records: seq<UserProfile>): (r: seq<UserProfile>)
    ensures |r| == |records|
    ensures forall i :: 0 <= i < |records| ==> (r[i] != records[i] <==> NeedsUsername(records[i]))
    ensures forall i :: 0 <= i < |records| && NeedsUsername(records[i]) ==> r[i].username == Some(records[i].phone)
    ensures forall i :: 0 <= i < |records| ==> r[i] == records[i].(username := r[i].username)
    ensures forall i :: 0 <= i < |records| ==> !NeedsUsername(r[i])
    ensures r == records <==> forall i :: 0 <= i < |records| ==> !NeedsUsername(records[i])
  {
    seq(|records|, i requires 0 <= i < |records| => MigrateUser(records[i]))
  }

  /** Migrating twice changes nothing more than migrating once. */
  lemma MigrateIdempotent(records: seq<UserProfile>)
    ensures Migrate(Migrate(records)) == Migrate(records)
  {
  }

  /** The account list the app starts with, and whether it writes that list back. */
  datatype Loaded = Loaded(users: seq<UserProfile>, rewrite: bool)

  function LoadUsers(stored: StoredUsers): (r: Loaded)
    ensures r.users != []
    ensures !stored.Stored? || stored.records == [] ==> r == Loaded([InitialUser], true)
    ensures stored.Stored? && stored.records != [] ==>
      && r.users == Migrate(stored.records)
      && (r.rewrite <==> exists i :: 0 <= i < |stored.records| && NeedsUsername(stored.records[i]))
  {
    match stored
    case Stored(records) =>
      if records == [] then Loaded([InitialUser], true)
      else
        var migrated := Migrate(records);
        Loaded(migrated, migrated != records)
    case _ => Loaded([InitialUser], true)
  }

  /** The `spark-users` key once loading is done. */
  function StorageAfterLoad(stored: StoredUsers): StoredUsers
  {
    var loaded := LoadUsers(stored);
    if loaded.rewrite then Stored(loaded.users) else stored
  }

  /** Whatever was stored, after loading the storage holds exactly the in-memory list:
      a write happens whenever the two would otherwise differ. */
  lemma LoadSyncsStorage(stored: StoredUsers)
    ensures StorageAfterLoad(stored) == Stored(LoadUsers(stored).users)
  {
  }

  /** A legacy record that has only a phone gets that phone as its username. */
  lemma LegacyRecordGetsPhoneAsUsername()
    ensures
      var legacy := UserProfile("", None, "9998887770", "", "", None);
      LoadUsers(Stored([legacy])).users[0].username == Some("9998887770")
  {
  }

  // ---------------------------------------------------------------------------
  // Lookups

  /** `users.find(u => u.username === username && u.password === password)`, as an index. */
  function LoginIndex(users: seq<UserProfile>, username: string, password: Option<string>): (r: Option<nat>)
    ensures r.Some? <==> HasAccount(users, username, password)
    ensures r.Some? ==>
      r.value < |users| && users[r.value].username == Some(username) && users[r.value].password == password
    ensures r.Some? ==> forall j :: 0 <= j < r.value ==>
      !(users[j].username == Some(username) && users[j].password == password)
  {
    Seqs.FindFirst(users, (u: UserProfile) => u.username == Some(username) && u.password == password)
  }

  predicate HasAccount(users: seq<UserProfile>, username: string, password: Option<string>)
  {
    exists i :: 0 <= i < |users| && users[i].username == Some(username) && users[i].password == password
  }

  /** The account a session marker restores: the first with that username, if the marker is
      present and non-empty. */
  function SessionIndex(users: seq<UserProfile>, marker: Option<string>): Option<nat>
  {
    if marker.Some? && marker.value != "" then UsernameIndex(users, marker.value) else None
  }

  /** `users.find(u => u.username === name)`, as an index. */
  function UsernameIndex(users: seq<UserProfile>, name: string): Option<nat>
  {
    Seqs.FindFirst(users, (u: UserProfile) => u.username == Some(name))
  }

  // ---------------------------------------------------------------------------
  // Profile update

  /** `{ ...current, ...incoming }`: the incoming record wins for every key it has; the two
      optional keys fall back to the current record when the incoming one lacks them. */
  function MergeProfile(current: UserProfile, incoming: UserProfile): (r: UserProfile)
    ensures r.name == incoming.name && r.phone == incoming.phone
    ensures r.profilePic == incoming.profilePic && r.upiId == incoming.upiId
    ensures incoming.username.Some? ==> r.username == incoming.username
    ensures incoming.username.None? ==> r.username == current.username
    ensures incoming.password.Some? ==> r.password == incoming.password
    ensures incoming.password.None? ==> r.password == current.password
  {
    incoming.(
      username := if incoming.username.Some? then incoming.username else current.username,
      password := if incoming.password.Some? then incoming.password else current.password)
  }

  /** Merging a record into itself, or merging the same edits again, changes nothing. */
  lemma MergeIdempotent(current: UserProfile, incoming: UserProfile)
    ensures MergeProfile(current, current) == current
    ensures MergeProfile(MergeProfile(current, incoming), incoming) == MergeProfile(current, incoming)
  {
  }

  /** `users.map(u => u.username === key ? profile : u)` */
  function ReplaceByUsername(users: seq<UserProfile>, key: Option<string>, profile: UserProfile): (r: seq<UserProfile>)
    ensures |r| == |users|
    ensures forall i :: 0 <= i < |users| ==> r[i] == if users[i].username == key then profile else users[i]
  {
    seq(|users|, i requires 0 <= i < |users| => if users[i].username == key then profile else users[i])
  }

  /** Replacing the records of a user that is in the list leaves the new profile in the list. */
  lemma ReplacePlacesProfile(users: seq<UserProfile>, current: UserProfile, profile: UserProfile)
    requires current in users
    ensures profile in ReplaceByUsername(users, current.username, profile)
  {
    var i :| 0 <= i < |users| && users[i] == current;
    assert ReplaceByUsername(users, current.username, profile)[i] == profile;
  }

  function PhoneIndex(accounts: seq<SavedAccount>, phone: string): Option<nat>
  {
    Seqs.FindFirst(accounts, (a: SavedAccount) => a.phone == phone)
  }

  /** The saved-account upsert keyed by phone: the first account with the profile's phone gets
      its name and UPI id, otherwise a new account is appended. */
  function UpsertAccount(accounts: seq<SavedAccount>, profile: UserProfile, newId: int): (r: seq<SavedAccount>)
    ensures PhoneIndex(accounts, profile.phone).Some? ==>
      var k := PhoneIndex(accounts, profile.phone).value;
      && |r| == |accounts|
      && r[k] == SavedAccount(accounts[k].id, profile.name, accounts[k].phone, profile.upiId)
      && forall j :: 0 <= j < |r| && j != k ==> r[j] == accounts[j]
    ensures PhoneIndex(accounts, profile.phone).None? ==>
      r == accounts + [SavedAccount(newId, profile.name, profile.phone, profile.upiId)]
  {
    match PhoneIndex(accounts, profile.phone)
    case Some(k) =>
      accounts[k := accounts[k].(name := profile.name, upiId := profile.upiId)]
    case None =>
      accounts + [SavedAccount(newId, profile.name, profile.phone, profile.upiId)]
  }

  /** No two saved accounts share a phone. */
  ghost predicate PhonesDistinct(accounts: seq<SavedAccount>)
  {
    forall i, j :: 0 <= i < j < |accounts| ==> accounts[i].phone != accounts[j].phone
  }

  /** Some saved account carries the profile's phone, name and UPI id. */
  ghost predicate HasAccountFor(accounts: seq<SavedAccount>, profile: UserProfile)
  {
    exists j :: 0 <= j < |accounts| && accounts[j].phone == profile.phone
      && accounts[j].name == profile.name && accounts[j].upiId == profile.upiId
  }

  /** The upsert never creates a second account for a phone, and afterwards the profile's phone
      has an account carrying the profile's name and UPI id. */
  lemma UpsertKeepsPhonesDistinct(accounts: seq<SavedAccount>, profile: UserProfile, newId: int)
    requires PhonesDistinct(accounts)
    ensures PhonesDistinct(UpsertAccount(accounts, profile, newId))
    ensures HasAccountFor(UpsertAccount(accounts, profile, newId), profile)
  {
    var r := UpsertAccount(accounts, profile, newId);
    match PhoneIndex(accounts, profile.phone)
    case Some(k) =>
      assert r[k].phone == profile.phone;
    case None =>
      assert r[|accounts|].phone == profile.phone;
  }

  /** Saving the same profile twice leaves the accounts as saving it once. */
  lemma UpsertIdempotent(accounts: seq<SavedAccount>, profile: UserProfile, id1: int, id2: int)
    ensures UpsertAccount(UpsertAccount(accounts, profile, id1), profile, id2) == UpsertAccount(accounts, profile, id1)
  {
    var r := UpsertAccount(accounts, profile, id1);
    match PhoneIndex(accounts, profile.phone)
    case Some(k) =>
      assert PhoneIndex(r, profile.phone) == Some(k) by {
        assert forall j :: 0 <= j < k ==> r[j] == accounts[j];
      }
      assert r[k := r[k].(name := profile.name, upiId := profile.upiId)] == r;
    case None =>
      var n := |accounts|;
      assert PhoneIndex(r, profile.phone) == Some(n) by {
        assert forall j :: 0 <= j < n ==> r[j] == accounts[j];
      }
      assert r[n := r[n].(name := profile.name, upiId := profile.upiId)] == r;
  }

  // ---------------------------------------------------------------------------
  // Orders, listings, search

  /** The order the store records for a request, with the id and timestamp it is given. */
  function MakeOrder(request: OrderRequest, id: int, date: string): (o: Order)
    ensures o.shippingAddress == request.address
    ensures RequestOf(o) == request && o.id == id && o.orderDate == date
  {
    Order(id, request.product, request.finalPrice, date, request.address, request.orderType, request.margin)
  }

  /** The request an order was made from. */
  function RequestOf(o: Order): OrderRequest
  {
    OrderRequest(o.product, o.finalPrice, o.shippingAddress, o.orderType, o.margin)
  }

  function MakeProduct(data: ProductData, id: int): (p: Product)
    ensures p.id == id && ProductData(p.name, p.description, p.price, p.imageUrls) == data
  {
    Product(id, data.name, data.description, data.price, data.imageUrls)
  }

  /** The search rule: the lower-cased name contains the lower-cased term. */
  predicate NameMatches(p: Product, term: string)
  {
    Contains(ToLower(p.name), ToLower(term))
  }

  /** The catalogue as the search box filters it. */
  function SearchProducts(products: seq<Product>, term: string): (r: seq<Product>)
    ensures |r| <= |products|
    ensures Seqs.IsSubsequence(r, products)
    ensures forall p :: p in r <==> p in products && NameMatches(p, term)
    ensures forall p {:trigger multiset(r)[p]} :: multiset(r)[p] == if NameMatches(p, term) then multiset(products)[p] else 0
  {
    Seqs.Filter(products, (p: Product) => NameMatches(p, term))
  }

  /** An empty search term keeps the whole catalogue, in order. */
  lemma SearchEmptyTerm(products: seq<Product>)
    ensures SearchProducts(products, "") == products
  {
    var keep := (p: Product) => NameMatches(p, "");
    forall p | p in products ensures keep(p) {
      assert ToLower("") == [];
    }
    Seqs.FilterAll(products, keep);
  }


  // ---------------------------------------------------------------------------
  // The store

  class App {
    var products: seq<Product>
    var orders: seq<Order>
    var users: seq<UserProfile>
    var currentUser: Option<UserProfile>
    var savedAccounts: seq<SavedAccount>
    var searchTerm: string
    /** The `spark-users` key of local storage. */
    var localUsers: StoredUsers
    /** The `spark-currentUsername` key of session storage. */
    var sessionUsername: Option<string>
    var isAuthModalOpen: bool
    var isProfileModalOpen: bool
    var isAddProductModalOpen: bool
    var isPasswordPromptOpen: bool
    var isManagementModalOpen: bool
    var passwordError: string

    /** Storage always mirrors the account list, the signed-in user is one of the accounts, and
        no phone has two saved accounts. */
    ghost predicate Valid()
      reads this
    {
      && localUsers == Stored(users)
      && (currentUser.Some? ==> currentUser.value in users)
      && PhonesDistinct(savedAccounts)
    }

    /** The state initialisers: the account list is loaded from storage (seeding or migrating it),
        nobody is signed in yet, and the ledger is empty. */
    constructor (stored: StoredUsers, session: Option<string>, catalogue: seq<Product>)
      ensures Valid()
      ensures users == LoadUsers(stored).users && localUsers == StorageAfterLoad(stored)
      ensures currentUser == None && sessionUsername == session
      ensures products == catalogue && orders == [] && savedAccounts == DefaultSavedAccounts
      ensures searchTerm == "" && passwordError == ""
      ensures !isAuthModalOpen && !isProfileModalOpen && !isAddProductModalOpen
      ensures !isPasswordPromptOpen && !isManagementModalOpen
    {
      var loaded := LoadUsers(stored);
      users := loaded.users;
      localUsers := if loaded.rewrite then Stored(loaded.users) else stored;
      LoadSyncsStorage(stored);
      currentUser := None;
      sessionUsername := session;
      products := catalogue;
      orders := [];
      savedAccounts := DefaultSavedAccounts;
      searchTerm := "";
      isAuthModalOpen, isProfileModalOpen, isAddProductModalOpen := false, false, false;
      isPasswordPromptOpen, isManagementModalOpen := false, false;
      passwordError := "";
    }

    /** The mount effect: a non-empty session marker signs in the first stored account with
        that username; with no such account nothing happens. */
    method RestoreSession()
      requires Valid()
      modifies this`currentUser
      ensures Valid()
      ensures SessionIndex(users, sessionUsername).Some? ==>
        currentUser == Some(users[SessionIndex(users, sessionUsername).value])
      ensures SessionIndex(users, sessionUsername).None? ==> currentUser == old(currentUser)
    {
      if sessionUsername.Some? && sessionUsername.value != "" {
        var saved := localUsers.records;
        var found := UsernameIndex(saved, sessionUsername.value);
        if found.Some? {
          currentUser := Some(saved[found.value]);
        }
      }
    }

    /** `handleLogin`: succeeds exactly when some account has this username and password. */
    method Login(username: string, password: Option<string>) returns (ok: bool)
      requires Valid()
      modifies this`currentUser, this`sessionUsername, this`isAuthModalOpen
      ensures Valid()
      ensures ok <==> HasAccount(users, username, password)
      ensures ok ==>
        && currentUser == Some(users[LoginIndex(users, username, password).value])
        && currentUser.value.username == Some(username)
        && sessionUsername == Some(username)
        && !isAuthModalOpen
      ensures !ok ==> unchanged(this)
    {
      var found := LoginIndex(users, username, password);
      if found.Some? {
        var user := users[found.value];
        currentUser := Some(user);
        sessionUsername := Some(user.username.value);
        isAuthModalOpen := false;
        ok := true;
      } else {
        ok := false;
      }
    }

    /** `handleLogout`: the result does not depend on the state before, so logging out twice is
        the same as logging out once. */
    method Logout()
      requires Valid()
      modifies this`currentUser, this`sessionUsername, this`isProfileModalOpen
      ensures Valid()
      ensures currentUser == None && sessionUsername == None && !isProfileModalOpen
    {
      currentUser := None;
      sessionUsername := None;
      isProfileModalOpen := false;
    }

    /** `handleUpdateProfile` */
    method UpdateProfile(incoming: UserProfile, now: int)
      requires Valid()
      modifies this`users, this`localUsers, this`currentUser, this`savedAccounts, this`isProfileModalOpen
      ensures Valid()
      ensures old(currentUser).None? ==> unchanged(this)
      ensures old(currentUser).Some? ==>
        var merged := MergeProfile(old(currentUser).value, incoming);
        && |users| == |old(users)|
        && (forall i :: 0 <= i < |users| ==>
              users[i] == if old(users)[i].username == old(currentUser).value.username then merged else old(users)[i])
        && localUsers == Stored(users)
        && currentUser == Some(merged)
        && savedAccounts == UpsertAccount(old(savedAccounts), merged, now)
        && !isProfileModalOpen
    {
      if currentUser.None? {
        return;
      }
      var current := currentUser.value;
      var merged := MergeProfile(current, incoming);
      ReplacePlacesProfile(users, current, merged);
      UpsertKeepsPhonesDistinct(savedAccounts, merged, now);
      users := ReplaceByUsername(users, current.username, merged);
      localUsers := Stored(users);
      currentUser := Some(merged);
      savedAccounts := UpsertAccount(savedAccounts, merged, now);
      isProfileModalOpen := false;
    }

    /** `handlePlaceOrder`: the new order goes in front of the ledger. */
    method PlaceOrder(request: OrderRequest, id: int, date: string)
      modifies this`orders
      ensures orders == [MakeOrder(request, id, date)] + old(orders)
    {
      orders := [MakeOrder(request, id, date)] + orders;
    }

    /** `handleAddProduct`: the new listing goes in front of the catalogue and the form closes. */
    method AddProduct(data: ProductData, id: int)
      modifies this`products, this`isAddProductModalOpen
      ensures products == [MakeProduct(data, id)] + old(products)
      ensures !isAddProductModalOpen
    {
      products := [MakeProduct(data, id)] + products;
      isAddProductModalOpen := false;
    }

    /** `handlePasswordCheck`: only the shared password opens the management panel. */
    method CheckAdminPassword(password: string)
      modifies this`passwordError, this`isPasswordPromptOpen, this`isManagementModalOpen
      ensures password == AdminPassword ==>
        passwordError == "" && !isPasswordPromptOpen && isManagementModalOpen
      ensures password != AdminPassword ==>
        && passwordError == IncorrectPasswordMessage
        && isPasswordPromptOpen == old(isPasswordPromptOpen)
        && isManagementModalOpen == old(isManagementModalOpen)
    {
      if password == AdminPassword {
        passwordError := "";
        isPasswordPromptOpen := false;
        isManagementModalOpen := true;
      } else {
        passwordError := IncorrectPasswordMessage;
      }
    }

    method SetSearchTerm(term: string)
      modifies this`searchTerm
      ensures searchTerm == term
    {
      searchTerm := term;
    }

    /** `filteredProducts` */
    function FilteredProducts(): (r: seq<Product>)
      reads this
      ensures Seqs.IsSubsequence(r, products)
      ensures forall p :: p in r <==> p in products && NameMatches(p, searchTerm)
      ensures searchTerm == "" ==> r == products
    {
      SearchEmptyTerm(products);
      SearchProducts(products, searchTerm)
    }
  }
}
