/** The fixed registries of the web client: expense and income categories
    with their colours and icons, the family roster, and the string constants
    for transaction types and date ranges. The registries are object literals
    keyed by name; here they are lists of (name, record) pairs in the
    literal's order. */
module Registry {
  import opened Common

  /** A category's display record. The `gradient` strings are built from
      `primary` and `hover` and are not kept. Income categories have no
      suggested limit. */
  datatype CategoryStyle = CategoryStyle(
    primary: string,
    hover: string,
    icon: string,
    description: string,
    suggestedLimit: Option<real>)

  const ExpenseCategories: seq<(string, CategoryStyle)> := [
    ("EMI", CategoryStyle("#FF6B6B", "#FF8787", "\U{1F4B0}", "Loan payments and EMIs", Some(0.3))),
    ("Hospital", CategoryStyle("#FF4757", "#FF6B81", "\U{1F3E5}", "Medical expenses and healthcare", Some(0.1))),
    ("Emergency Fund and Targets",
      CategoryStyle("#FFA502", "#FFBE76", "\U{1F6A8}", "Emergency savings and unexpected expenses", Some(0.1))),
    ("Rent", CategoryStyle("#4ECDC4", "#6EE7E7", "\U{1F3E0}", "Housing and rent expenses", Some(0.35))),
    ("Shopping", CategoryStyle("#A78BFA", "#C4B5FD", "\U{1F6CD}\U{FE0F}", "Personal and retail shopping", Some(0.15))),
    ("Travel", CategoryStyle("#F59E0B", "#FBBF24", "\U{2708}\U{FE0F}", "Travel and transportation expenses", Some(0.1))),
    ("Subscriptions", CategoryStyle("#EC4899", "#F472B6", "\U{1F4F1}", "Regular subscription services", Some(0.05))),
    ("Household", CategoryStyle("#96C93D", "#B5E655", "\U{1F3E1}", "Household and utilities", Some(0.15))),
    ("Food", CategoryStyle("#FED766", "#FFE899", "\U{1F37D}\U{FE0F}", "Food and dining expenses", Some(0.15))),
    ("Entertainment", CategoryStyle("#A18CD1", "#BBA4E3", "\U{1F3AE}", "Entertainment and recreation", Some(0.1))),
    ("Others", CategoryStyle("#8E8E93", "#AEAEB2", "\U{1F4CC}", "Miscellaneous expenses", Some(0.05))),
    ("Investments", CategoryStyle("#27ae60", "#2ecc71", "\U{1F4C8}",
      "Investments and target savings for major goals (e.g., Gold Chain, iPhone, Foreign Trip, Custom PC)", Some(0.15)))
  ]

  const IncomeCategories: seq<(string, CategoryStyle)> := [
    ("Salary", CategoryStyle("#22C55E", "#4ADE80", "\U{1F4B5}", "Regular employment income", None)),
    ("Business", CategoryStyle("#8B5CF6", "#A78BFA", "\U{1F4BC}", "Business and self-employment income", None)),
    ("Freelance", CategoryStyle("#EC4899", "#F472B6", "\U{1F4BB}", "Freelance and contract work", None)),
    ("Rental", CategoryStyle("#F59E0B", "#FBBF24", "\U{1F3E0}", "Income from rental properties", None)),
    ("Others", CategoryStyle("#6B7280", "#9CA3AF", "\U{1F4B0}", "Other sources of income", None))
  ]

  /** A roster entry of the family. */
  datatype Member = Member(id: int, name: string, role: string, icon: string, color: string)

  const FamilyMembers: seq<Member> := [
    Member(1, "Mummy", "parent", "\U{1F469}", "#EC4899"),
    Member(2, "Anuraag", "child", "\U{1F466}", "#10B981")
  ]

  const DAILY: string := "daily"
  const WEEKLY: string := "weekly"
  const MONTHLY: string := "monthly"
  const QUARTERLY: string := "quarterly"
  const YEARLY: string := "yearly"
  const CUSTOM: string := "custom"

  /** `table[name]`: the record filed under `name`, if any. */
  function Lookup(table: seq<(string, CategoryStyle)>, name: string): (r: Option<CategoryStyle>)
    ensures r.Some? <==> exists i :: 0 <= i < |table| && table[i].0 == name
    ensures r.Some? ==> (name, r.value) in table
  {
    if table == [] then None
    else if table[0].0 == name then Some(table[0].1)
    else
      var r := Lookup(table[1..], name);
      assert forall i :: 1 <= i < |table| ==> table[i] == table[1..][i - 1];
      r
  }

  /** `familyMembers.find(m => m.name === name)`. */
  function FindMember(roster: seq<Member>, name: string): (r: Option<Member>)
    ensures r.Some? <==> exists i :: 0 <= i < |roster| && roster[i].name == name
    ensures r.Some? ==> r.value in roster && r.value.name == name
  {
    if roster == [] then None
    else if roster[0].name == name then Some(roster[0])
    else
      var r := FindMember(roster[1..], name);
      assert forall i :: 1 <= i < |roster| ==> roster[i] == roster[1..][i - 1];
      r
  }
}
