/** The enumerations of the application: global roles, contribution statuses
    and types, expense categories and contributor categories. Each is a
    datatype; its stored string form is given by a `...Name` function and read
    back by a `Parse...` function, and `Available...` lists its values the way
    `Object.values` does. */
module Constants {
  import opened Common

  const DbName: string := "Festivalfund"

  datatype GlobalRole = Admin | Viewer
  datatype ContributionStatus = Deposited | Pending | Cancelled
  datatype ContributionType = Cash | Item
  datatype ExpenseCategory = Mahaprasad | Decoration | Mandap | Sound | Other
  datatype ContributorCategory = Parents | Boys | Girls

  function RoleName(r: GlobalRole): string {
    match r
    case Admin => "admin"
    case Viewer => "viewer"
  }

  function StatusName(s: ContributionStatus): string {
    match s
    case Deposited => "deposited"
    case Pending => "pending"
    case Cancelled => "cancelled"
  }

  function TypeName(t: ContributionType): string {
    match t
    case Cash => "cash"
    case Item => "item"
  }

  function CategoryName(c: ExpenseCategory): string {
    match c
    case Mahaprasad => "Mahaprasad"
    case Decoration => "Decoration"
    case Mandap => "Mandap"
    case Sound => "Sound"
    case Other => "Other"
  }

  function ContributorCategoryName(c: ContributorCategory): string {
    match c
    case Parents => "Parents"
    case Boys => "Boys"
    case Girls => "Girls"
  }

  /** Reading a stored role string back is the inverse of `RoleName`. */
  function ParseRole(s: string): (r: Option<GlobalRole>)
    ensures forall x :: r == Some(x) <==> RoleName(x) == s
  {
    if s == "admin" then Some(Admin)
    else if s == "viewer" then Some(Viewer)
    else None
  }

  /** Reading a stored status string back is the inverse of `StatusName`. */
  function ParseStatus(s: string): (r: Option<ContributionStatus>)
    ensures forall x :: r == Some(x) <==> StatusName(x) == s
  {
    if s == "deposited" then Some(Deposited)
    else if s == "pending" then Some(Pending)
    else if s == "cancelled" then Some(Cancelled)
    else None
  }

  /** Reading a stored type string back is the inverse of `TypeName`. */
  function ParseType(s: string): (r: Option<ContributionType>)
    ensures forall x :: r == Some(x) <==> TypeName(x) == s
  {
    if s == "cash" then Some(Cash)
    else if s == "item" then Some(Item)
    else None
  }

  /** Reading a stored category string back is the inverse of `CategoryName`. */
  function ParseCategory(s: string): (r: Option<ExpenseCategory>)
    ensures forall x :: r == Some(x) <==> CategoryName(x) == s
  {
    if s == "Mahaprasad" then Some(Mahaprasad)
    else if s == "Decoration" then Some(Decoration)
    else if s == "Mandap" then Some(Mandap)
    else if s == "Sound" then Some(Sound)
    else if s == "Other" then Some(Other)
    else None
  }

  /** Reading a stored contributor category back is the inverse of `ContributorCategoryName`. */
  function ParseContributorCategory(s: string): (r: Option<ContributorCategory>)
    ensures forall x :: r == Some(x) <==> ContributorCategoryName(x) == s
  {
    if s == "Parents" then Some(Parents)
    else if s == "Boys" then Some(Boys)
    else if s == "Girls" then Some(Girls)
    else None
  }

  /** The roles are exactly admin and viewer, each listed once. */
  function AvailableGlobalRoles(): (r: seq<GlobalRole>)
    ensures |r| == 2
    ensures forall x :: x in r
    ensures forall i, j :: 0 <= i < j < |r| ==> RoleName(r[i]) != RoleName(r[j])
  {
    var r := [Admin, Viewer];
    assert forall x :: x in r by {
      forall x: GlobalRole ensures x in r {
        if x.Admin? { assert r[0] == x; } else { assert r[1] == x; }
      }
    }
    r
  }

  /** The statuses are exactly deposited, pending and cancelled, each listed once. */
  function AvailableContributionStatuses(): (r: seq<ContributionStatus>)
    ensures |r| == 3
    ensures forall x :: x in r
    ensures forall i, j :: 0 <= i < j < |r| ==> StatusName(r[i]) != StatusName(r[j])
  {
    var r := [Deposited, Pending, Cancelled];
    assert forall x :: x in r by {
      forall x: ContributionStatus ensures x in r {
        if x.Deposited? { assert r[0] == x; } else if x.Pending? { assert r[1] == x; } else { assert r[2] == x; }
      }
    }
    r
  }

  /** The contribution types are exactly cash and item, each listed once. */
  function AvailableContributionTypes(): (r: seq<ContributionType>)
    ensures |r| == 2
    ensures forall x :: x in r
    ensures forall i, j :: 0 <= i < j < |r| ==> TypeName(r[i]) != TypeName(r[j])
  {
    var r := [Cash, Item];
    assert forall x :: x in r by {
      forall x: ContributionType ensures x in r {
        if x.Cash? { assert r[0] == x; } else { assert r[1] == x; }
      }
    }
    r
  }

  /** The expense categories are exactly the five below, each listed once. */
  function AvailableExpenseCategories(): (r: seq<ExpenseCategory>)
    ensures |r| == 5
    ensures forall x :: x in r
    ensures forall i, j :: 0 <= i < j < |r| ==> CategoryName(r[i]) != CategoryName(r[j])
  {
    var r := [Mahaprasad, Decoration, Mandap, Sound, Other];
    assert forall x :: x in r by {
      forall x: ExpenseCategory ensures x in r {
        if x.Mahaprasad? { assert r[0] == x; } else if x.Decoration? { assert r[1] == x; } else if x.Mandap? { assert r[2] == x; } else if x.Sound? { assert r[3] == x; } else { assert r[4] == x; }
      }
    }
    r
  }

  /** The contributor categories are exactly Parents, Boys and Girls, each listed once. */
  function AvailableContributorCategories(): (r: seq<ContributorCategory>)
    ensures |r| == 3
    ensures forall x :: x in r
    ensures forall i, j :: 0 <= i < j < |r| ==> ContributorCategoryName(r[i]) != ContributorCategoryName(r[j])
  {
    var r := [Parents, Boys, Girls];
    assert forall x :: x in r by {
      forall x: ContributorCategory ensures x in r {
        if x.Parents? { assert r[0] == x; } else if x.Boys? { assert r[1] == x; } else { assert r[2] == x; }
      }
    }
    r
  }
}
