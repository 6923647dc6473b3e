/**
 * The user column list: eight fixed columns and an optional actions column,
 * the role badge, the cell each column renders, and the click traces of the
 * View, Edit and Delete buttons.
 */
module UsersColumns {
  import opened Text
  import opened Events
  import opened Entities

  datatype UserKey =
    | FirstNameKey | LastNameKey | AgeKey | GenderKey | EmailKey | PhoneKey
    | DateOfBirthKey | RoleKey | ActionsKey

  datatype UserColumn = UserColumn(key: UserKey, header: string)

  /** Which optional handlers the caller supplied. */
  datatype Handlers = Handlers(onView: bool, onEdit: bool, onDelete: bool)

  predicate AnyHandler(h: Handlers) {
    h.onView || h.onEdit || h.onDelete
  }

  const FixedKeys: seq<UserKey> :=
    [FirstNameKey, LastNameKey, AgeKey, GenderKey, EmailKey, PhoneKey, DateOfBirthKey, RoleKey]

  const FixedHeaders: seq<string> :=
    ["First Name", "Last Name", "Age", "Gender", "Email", "Phone", "Date of Birth", "Role"]

  /** `getColumns`: the fixed array, then `push` of the actions column when any handler is given. */
  method GetColumns(h: Handlers) returns (columns: seq<UserColumn>)
    ensures |columns| == if AnyHandler(h) then 9 else 8
    ensures forall i :: 0 <= i < 8 ==> columns[i].key == FixedKeys[i] && columns[i].header == FixedHeaders[i]
    ensures AnyHandler(h) ==> columns[8].header == ""
    ensures columns[|columns| - 1].key == ActionsKey <==> AnyHandler(h)
    ensures forall i :: 0 <= i < |columns| - 1 ==> columns[i].key != ActionsKey
  {
    columns := [
      UserColumn(FirstNameKey, "First Name"),
      UserColumn(LastNameKey, "Last Name"),
      UserColumn(AgeKey, "Age"),
      UserColumn(GenderKey, "Gender"),
      UserColumn(EmailKey, "Email"),
      UserColumn(PhoneKey, "Phone"),
      UserColumn(DateOfBirthKey, "Date of Birth"),
      UserColumn(RoleKey, "Role")
    ];
    if h.onView || h.onEdit || h.onDelete {
      columns := columns + [UserColumn(ActionsKey, "")];
    }
  }

  datatype Variant = Default | Secondary | Destructive | Success | Warning

  /** The badge variant, decided on the lower-cased role. */
  function RoleVariant(role: string): (v: Variant)
    ensures v == Destructive <==> ToLower(role) == "admin"
    ensures v == Warning <==> ToLower(role) == "manager"
    ensures v == Secondary <==> ToLower(role) != "admin" && ToLower(role) != "manager"
  {
    var lower := ToLower(role);
    if lower == "admin" then Destructive
    else if lower == "manager" then Warning
    else Secondary
  }

  /** The variant does not depend on letter case. */
  lemma RoleVariantIgnoresCase(role: string)
    ensures RoleVariant(ToLower(role)) == RoleVariant(role)
  {
    ToLowerIdempotent(role);
  }

  lemma AdminInCapitals()
    ensures RoleVariant("ADMIN") == Destructive && RoleVariant("Manager") == Warning
  {
    assert ToLower("ADMIN") == "admin";
    assert ToLower("Manager") == "manager";
  }

  datatype Badge = Badge(variant: Variant, text: string)

  /** The role cell: the variant comes from the lower-cased role, the text is the role as given. */
  function RoleBadge(role: string): (b: Badge)
    ensures b.text == role
    ensures b.variant == RoleVariant(role)
  {
    Badge(RoleVariant(role), role)
  }

  datatype ActionIcon = ViewIcon | EditIcon | DeleteIcon

  /** The buttons of the actions cell, left to right; each is there iff its handler is. */
  function ActionIcons(h: Handlers): (r: seq<ActionIcon>)
    ensures ViewIcon in r <==> h.onView
    ensures EditIcon in r <==> h.onEdit
    ensures DeleteIcon in r <==> h.onDelete
    ensures forall i, j :: 0 <= i < j < |r| ==> r[i] != r[j]
    ensures |r| > 0 <==> AnyHandler(h)
  {
    (if h.onView then [ViewIcon] else [])
      + (if h.onEdit then [EditIcon] else [])
      + (if h.onDelete then [DeleteIcon] else [])
  }

  /** The cell each column renders for a user. Date formatting is not modelled: `DateText` carries the raw value. */
  datatype Cell =
    | Text(text: string)
    | Number(value: int)
    | DateText(raw: string)
    | RoleCell(badge: Badge)
    | ActionsCell(icons: seq<ActionIcon>)

  function RenderCell(key: UserKey, u: User, h: Handlers): (c: Cell)
    ensures c.RoleCell? <==> key == RoleKey
    ensures c.RoleCell? ==> c.badge.text == u.role && c.badge.variant == RoleVariant(u.role)
    ensures c.ActionsCell? <==> key == ActionsKey
    ensures c.ActionsCell? ==> c.icons == ActionIcons(h) && (|c.icons| > 0 <==> AnyHandler(h))
    ensures c.Number? <==> key == AgeKey
    ensures c.Number? ==> c.value == u.age
    ensures c.DateText? <==> key == DateOfBirthKey
    ensures c.DateText? ==> c.raw == u.dateOfBirth
    ensures key == FirstNameKey ==> c == Text(u.firstName)
    ensures key == LastNameKey ==> c == Text(u.lastName)
    ensures key == GenderKey ==> c == Text(u.gender)
    ensures key == EmailKey ==> c == Text(u.email)
    ensures key == PhoneKey ==> c == Text(u.phone)
    ensures !(key in {RoleKey, ActionsKey}) ==> c.Text? || c.Number? || c.DateText?
  {
    match key
    case FirstNameKey => Text(u.firstName)
    case LastNameKey => Text(u.lastName)
    case AgeKey => Number(u.age)
    case GenderKey => Text(u.gender)
    case EmailKey => Text(u.email)
    case PhoneKey => Text(u.phone)
    case DateOfBirthKey => DateText(u.dateOfBirth)
    case RoleKey => RoleCell(RoleBadge(u.role))
    case ActionsKey => ActionsCell(ActionIcons(h))
  }

  datatype UserAction = ViewUser(user: User) | EditUser(user: User) | DeleteUser(userId: string)

  /** `handleDelete`: confirm is only asked when the handler exists, and the handler runs only on "yes". */
  function HandleDelete(hasHandler: bool, confirmed: bool, userId: string): (r: seq<Effect<UserAction>>)
    ensures Invocations(r) == if hasHandler && confirmed then 1 else 0
    ensures Invoke(DeleteUser(userId)) in r <==> hasHandler && confirmed
    ensures AskConfirm in r <==> hasHandler
    ensures forall i :: 0 <= i < |r| && r[i].Invoke? ==> r[i] == Invoke(DeleteUser(userId))
    ensures hasHandler ==> r[0] == AskConfirm
    ensures |r| == if !hasHandler then 0 else if confirmed then 2 else 1
  {
    InvocationsOfOne<UserAction>(AskConfirm);
    InvocationsOfOne(Invoke(DeleteUser(userId)));
    InvocationsAppend([AskConfirm], [Invoke(DeleteUser(userId))]);
    if !hasHandler then []
    else if confirmed then [AskConfirm, Invoke(DeleteUser(userId))]
    else [AskConfirm]
  }

  /** A click on an action button: the event is stopped, then the handler (or the delete gate) runs. */
  function Click(icon: ActionIcon, u: User, h: Handlers, confirmed: bool): seq<Effect<UserAction>> {
    match icon
    case ViewIcon => [StopPropagation, Invoke(ViewUser(u))]
    case EditIcon => [StopPropagation, Invoke(EditUser(u))]
    case DeleteIcon => [StopPropagation] + HandleDelete(h.onDelete, confirmed, u.id)
  }

  /**
   * Every shown button stops propagation first; View and Edit call their
   * handler once, Delete calls `onDeleteUser(user.id)` once if confirmed and
   * never otherwise.
   */
  lemma ClickContract(icon: ActionIcon, u: User, h: Handlers, confirmed: bool)
    requires icon in ActionIcons(h)
    ensures StopsFirst(Click(icon, u, h, confirmed))
    ensures Invocations(Click(icon, u, h, confirmed)) == if icon == DeleteIcon && !confirmed then 0 else 1
    ensures icon == DeleteIcon ==> (Invoke(DeleteUser(u.id)) in Click(icon, u, h, confirmed) <==> confirmed)
  {
    if icon == DeleteIcon {
      DeleteClickContract(u, h, confirmed);
    } else {
      PlainClickContract(icon, u, h, confirmed);
    }
  }

  /** View and Edit: the event is stopped, then the handler runs once. */
  lemma PlainClickContract(icon: ActionIcon, u: User, h: Handlers, confirmed: bool)
    requires icon != DeleteIcon
    ensures StopsFirst(Click(icon, u, h, confirmed))
    ensures Invocations(Click(icon, u, h, confirmed)) == 1
  {
    var action := if icon == ViewIcon then ViewUser(u) else EditUser(u);
    assert Click(icon, u, h, confirmed) == [StopPropagation] + [Invoke(action)];
    InvocationsAppend([StopPropagation], [Invoke(action)]);
    InvocationsOfOne<UserAction>(StopPropagation);
    InvocationsOfOne(Invoke(action));
  }

  lemma DeleteClickContract(u: User, h: Handlers, confirmed: bool)
    requires h.onDelete
    ensures StopsFirst(Click(DeleteIcon, u, h, confirmed))
    ensures Invocations(Click(DeleteIcon, u, h, confirmed)) == if confirmed then 1 else 0
    ensures Invoke(DeleteUser(u.id)) in Click(DeleteIcon, u, h, confirmed) <==> confirmed
    ensures |Click(DeleteIcon, u, h, confirmed)| >= 2 && Click(DeleteIcon, u, h, confirmed)[1] == AskConfirm
  {
    var gate := HandleDelete(h.onDelete, confirmed, u.id);
    InvocationsOfOne<UserAction>(StopPropagation);
    InvocationsAppend([StopPropagation], gate);
    assert Click(DeleteIcon, u, h, confirmed) == [StopPropagation] + gate;
    assert Invoke(DeleteUser(u.id)) in gate <==> confirmed;
  }
}
