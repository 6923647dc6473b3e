/**
 * The top-level component: the active tab, the add-user modal flag, the
 * eight-field draft and the append-only user list, with the handlers that
 * change them, and the projection of users to table rows.
 */
module AppState {
  import opened Wrappers
  import opened Text
  import opened Entities
  import Dashboard

  /** The `name` attribute of each form input. */
  datatype Field = FirstName | LastName | Age | Gender | Email | Phone | DateOfBirth | Role

  /** The form's string values (`formData`). */
  datatype Draft = Draft(
    firstName: string,
    lastName: string,
    age: string,
    gender: string,
    email: string,
    phone: string,
    dateOfBirth: string,
    role: string)

  const EmptyDraft := Draft("", "", "", "", "", "", "", "")

  function Get(d: Draft, f: Field): string {
    match f
    case FirstName => d.firstName
    case LastName => d.lastName
    case Age => d.age
    case Gender => d.gender
    case Email => d.email
    case Phone => d.phone
    case DateOfBirth => d.dateOfBirth
    case Role => d.role
  }

  /** `{ ...prev, [name]: value }`: the named field takes the value, the other seven keep theirs. */
  function WithField(d: Draft, f: Field, value: string): (r: Draft)
    ensures Get(r, f) == value
    ensures forall g :: g != f ==> Get(r, g) == Get(d, g)
  {
    match f
    case FirstName => d.(firstName := value)
    case LastName => d.(lastName := value)
    case Age => d.(age := value)
    case Gender => d.(gender := value)
    case Email => d.(email := value)
    case Phone => d.(phone := value)
    case DateOfBirth => d.(dateOfBirth := value)
    case Role => d.(role := value)
  }

  /**
   * The browser lets the form submit only when every `required` input has a
   * value and the numeric age input holds a whole number of at least 1.
   */
  predicate Submittable(d: Draft) {
    && (forall f :: Get(d, f) != "")
    && AllDigits(d.age)
    && ParseDecimal(d.age) >= 1
  }

  /**
   * Clearing any input blocks the submit, and so does an age of "0"; the
   * blank draft of a freshly opened form cannot be submitted.
   */
  lemma RequiredInputsGate(d: Draft, f: Field)
    ensures !Submittable(WithField(d, f, ""))
    ensures !Submittable(WithField(d, Age, "0"))
    ensures !Submittable(EmptyDraft)
  {
    assert Get(WithField(d, f, ""), f) == "";
    assert Get(EmptyDraft, FirstName) == "";
    assert ParseDecimal("0") == 0 by { assert "0"[..0] == ""; }
  }

  /** The user `handleSubmit` builds from the draft at time `now` (milliseconds). */
  function NewUser(d: Draft, now: nat): (u: User)
    requires Submittable(d)
    ensures u.firstName == d.firstName && u.lastName == d.lastName
    ensures u.gender == d.gender && u.email == d.email && u.phone == d.phone
    ensures u.dateOfBirth == d.dateOfBirth && u.role == d.role
    ensures u.age == ParseDecimal(d.age) && u.age >= 1
    ensures u.id == DecimalString(now) && ParseDecimal(u.id) == now
    ensures u.imageUrl == None
  {
    ParseDecimalString(now);
    User(DecimalString(now), d.firstName, d.lastName, ParseDecimal(d.age), d.gender,
      d.email, d.phone, d.dateOfBirth, d.role, None)
  }

  /** Users submitted at different instants get different ids. */
  lemma DistinctInstantsDistinctIds(d1: Draft, d2: Draft, t1: nat, t2: nat)
    requires Submittable(d1) && Submittable(d2)
    ensures NewUser(d1, t1).id == NewUser(d2, t2).id <==> t1 == t2
  {
    DecimalStringInjective(t1, t2);
  }

  /** One table row; `nowIso` stands for `new Date().toISOString()`. */
  function ToRow(u: User, nowIso: string): UserRow {
    UserRow(u.id, u.firstName + " " + u.lastName, u.email, u.role, Active,
      if u.dateOfBirth != "" then u.dateOfBirth else nowIso)
  }

  /** `transformUsersForUserTable`: one row per user, in order. */
  function TransformUsersForUserTable(users: seq<User>, nowIso: string): (rows: seq<UserRow>)
    ensures |rows| == |users|
    ensures forall i :: 0 <= i < |users| ==>
      && rows[i].id == users[i].id
      && rows[i].email == users[i].email
      && rows[i].role == users[i].role
      && rows[i].name == users[i].firstName + " " + users[i].lastName
      && rows[i].status == Active
      && rows[i].createdAt == (if users[i].dateOfBirth != "" then users[i].dateOfBirth else nowIso)
  {
    if |users| == 0 then []
    else [ToRow(users[0], nowIso)] + TransformUsersForUserTable(users[1..], nowIso)
  }

  /** Appending a user appends exactly its row to the table. */
  lemma {:induction false} TransformAppend(users: seq<User>, u: User, nowIso: string)
    ensures TransformUsersForUserTable(users + [u], nowIso)
         == TransformUsersForUserTable(users, nowIso) + [ToRow(u, nowIso)]
    decreases |users|
  {
    if |users| > 0 {
      assert (users + [u])[1..] == users[1..] + [u];
      TransformAppend(users[1..], u, nowIso);
    }
  }

  /** The component `App` renders for the active tab; any other tab value shows the users view. */
  datatype Screen = DashboardScreen | ProductsScreen | UsersScreen

  function ScreenFor(tab: string): (s: Screen)
    ensures s == DashboardScreen <==> tab == "dashboard"
    ensures s == ProductsScreen <==> tab == "products"
    ensures s == UsersScreen <==> tab != "dashboard" && tab != "products"
  {
    if tab == "dashboard" then DashboardScreen
    else if tab == "products" then ProductsScreen
    else UsersScreen
  }

  /**
   * As written, `App` hands its raw `users` to the dashboard, whose user
   * preview reads a `name` property that these records do not have.
   */
  function DashboardUserCellsAsWritten(users: seq<User>): (rows: seq<Dashboard.UserPreviewCells>)
    ensures |rows| == Dashboard.Min(5, |users|)
    ensures forall i :: 0 <= i < |rows| ==>
      rows[i].id == users[i].id && rows[i].name == None &&
      rows[i].email == users[i].email && rows[i].role == users[i].role
  {
    var shown := Dashboard.Preview(users);
    seq(|shown|, i requires 0 <= i < |shown| => Dashboard.UserPreviewCells(shown[i].id, None, shown[i].email, shown[i].role))
  }

  /** Any stored user leaves its name cell blank in the dashboard preview as written. */
  lemma NameMissingAsWritten(users: seq<User>)
    requires |users| > 0
    ensures DashboardUserCellsAsWritten(users)[0].name != Some(users[0].firstName + " " + users[0].lastName)
  {
  }

  /** The users the dashboard should receive: the same rows the users tab shows. */
  function DashboardUsers(users: seq<User>, nowIso: string): (rows: seq<UserRow>)
    ensures |rows| == |users|
    ensures forall i :: 0 <= i < |users| ==> rows[i].name == users[i].firstName + " " + users[i].lastName
  {
    TransformUsersForUserTable(users, nowIso)
  }

  /** With the rows passed, every previewed user shows its full name. */
  lemma PreviewShowsNames(users: seq<User>, nowIso: string, i: nat)
    requires i < Dashboard.Min(5, |users|)
    ensures Dashboard.UserPreviewTable(DashboardUsers(users, nowIso))[i].name
         == Some(users[i].firstName + " " + users[i].lastName)
  {
  }

  /**
   * The user preview is rendered only by a dashboard without a parent tab
   * setter. Given the corrected rows, its "Users" tab shows every previewed
   * user's full name.
   */
  method StandaloneUsersTab(products: seq<Product>, users: seq<User>, nowIso: string)
    returns (screen: Dashboard.Screen)
    ensures screen.UsersPreview?
    ensures |screen.rows| == Dashboard.Min(5, |users|)
    ensures forall i :: 0 <= i < |screen.rows| ==>
      screen.rows[i].name == Some(users[i].firstName + " " + users[i].lastName)
  {
    var d := new Dashboard.DashboardState(Some(products), Some(DashboardUsers(users, nowIso)), false);
    var _ := d.HandleTabChange("users");
    screen := d.View();
  }

  class App {
    var activeTab: string
    var users: seq<User>
    var isUserFormOpen: bool
    var formData: Draft

    /**
     * Every stored user came through the form: a positive age, a numeric id,
     * and a date of birth from the `required` date input.
     */
    ghost predicate Valid()
      reads this
    {
      forall i :: 0 <= i < |users| ==>
        users[i].age >= 1 && AllDigits(users[i].id) && users[i].id != "" && users[i].dateOfBirth != ""
    }

    constructor ()
      ensures Valid()
      ensures activeTab == "dashboard" && users == [] && !isUserFormOpen
      ensures formData == EmptyDraft && forall f :: Get(formData, f) == ""
    {
      activeTab := "dashboard";
      users := [];
      isUserFormOpen := false;
      formData := EmptyDraft;
    }

    /** A tab button, or the dashboard's parent setter. */
    method SetActiveTab(tab: string)
      requires Valid()
      modifies this
      ensures Valid()
      ensures activeTab == tab
      ensures users == old(users) && isUserFormOpen == old(isUserFormOpen) && formData == old(formData)
    {
      activeTab := tab;
    }

    /** `handleInputChange` for the input named `name`. */
    method HandleInputChange(name: Field, value: string)
      requires Valid()
      modifies this
      ensures Valid()
      ensures formData == WithField(old(formData), name, value)
      ensures activeTab == old(activeTab) && users == old(users) && isUserFormOpen == old(isUserFormOpen)
    {
      formData := WithField(formData, name, value);
    }

    /** The "Add User" button: opens the modal and keeps whatever the draft holds. */
    method OpenUserForm()
      requires Valid()
      modifies this
      ensures Valid()
      ensures isUserFormOpen
      ensures activeTab == old(activeTab) && users == old(users) && formData == old(formData)
    {
      isUserFormOpen := true;
    }

    /** The × and Cancel buttons: close the modal without clearing the draft. */
    method CloseUserForm()
      requires Valid()
      modifies this
      ensures Valid()
      ensures !isUserFormOpen
      ensures activeTab == old(activeTab) && users == old(users) && formData == old(formData)
    {
      isUserFormOpen := false;
    }

    /** `handleSubmit` at time `now`: append the new user, clear the draft, close the modal. */
    method HandleSubmit(now: nat)
      requires Valid()
      requires isUserFormOpen && Submittable(formData)
      modifies this
      ensures Valid()
      ensures users == old(users) + [NewUser(old(formData), now)]
      ensures forall f :: Get(formData, f) == ""
      ensures !isUserFormOpen && activeTab == old(activeTab)
    {
      assert Get(formData, DateOfBirth) != "";
      var newUser := NewUser(formData, now);
      users := users + [newUser];
      formData := EmptyDraft;
      isUserFormOpen := false;
    }

    /**
     * The rows the users tab shows at a render whose clock reads `nowIso`:
     * every id is the digit string of a submit instant, and no row falls back
     * to the clock.
     */
    function UserTableRows(nowIso: string): (rows: seq<UserRow>)
      requires Valid()
      reads this
      ensures |rows| == |users|
      ensures forall i :: 0 <= i < |rows| ==>
        AllDigits(rows[i].id) && rows[i].id != "" && rows[i].createdAt == users[i].dateOfBirth
    {
      TransformUsersForUserTable(users, nowIso)
    }
  }

  /**
   * Users that all have a date of birth give the same rows whatever the
   * clock reads: the `toISOString()` fallback is never taken.
   */
  lemma {:induction false} RowsIgnoreClock(users: seq<User>, a: string, b: string)
    requires forall i :: 0 <= i < |users| ==> users[i].dateOfBirth != ""
    ensures TransformUsersForUserTable(users, a) == TransformUsersForUserTable(users, b)
    decreases |users|
  {
    if |users| > 0 {
      RowsIgnoreClock(users[1..], a, b);
    }
  }

  /**
   * A submit adds exactly one row, for the new user, at the end of the users
   * table. Each render reads the clock anew; the rows before and after the
   * submit may be rendered at different times.
   */
  method SubmitAddsOneRow(app: App, now: nat, before: string, after: string)
    requires app.Valid() && app.isUserFormOpen && Submittable(app.formData)
    modifies app
    ensures app.Valid()
    ensures app.UserTableRows(after) == old(app.UserTableRows(before)) + [ToRow(NewUser(old(app.formData), now), after)]
  {
    ghost var stored := app.users;
    app.HandleSubmit(now);
    TransformAppend(stored, NewUser(old(app.formData), now), after);
    RowsIgnoreClock(stored, before, after);
  }

  /**
   * Filling in the form for Ada Lovelace, aged "30", and submitting leaves
   * exactly one user, whose age is the number 30, and a closed modal.
   */
  method AddLovelace(now: nat) returns (app: App)
    ensures |app.users| == 1
    ensures app.users[0].firstName == "Ada" && app.users[0].lastName == "Lovelace"
    ensures app.users[0].age == 30
    ensures !app.isUserFormOpen && forall f :: Get(app.formData, f) == ""
  {
    app := new App();
    app.OpenUserForm();
    app.HandleInputChange(FirstName, "Ada");
    app.HandleInputChange(LastName, "Lovelace");
    app.HandleInputChange(Age, "30");
    app.HandleInputChange(Gender, "female");
    assert app.formData == Draft("Ada", "Lovelace", "30", "female", "", "", "", "");
    app.HandleInputChange(Email, "ada@example.com");
    app.HandleInputChange(Phone, "555-0100");
    app.HandleInputChange(DateOfBirth, "1815-12-10");
    app.HandleInputChange(Role, "admin");
    assert app.formData == Draft("Ada", "Lovelace", "30", "female", "ada@example.com", "555-0100", "1815-12-10", "admin");
    assert ParseDecimal("30") == 30 by {
      assert "30"[..1] == "3";
      assert "3"[..0] == "";
    }
    app.HandleSubmit(now);
  }
}
