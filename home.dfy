/** `Home`, the start page of the single-page front end: a greeting by time
    of day, the tasks with a due date, the tasks in a list, and the fetch
    that fills the task store when the page mounts. */
module HomeRoute {
  import opened Common

  datatype User = User(name: string)

  /** The fields of a front-end task the page filters on. */
  datatype HomeTask = HomeTask(due: Option<string>, listId: Option<string>)

  /** `name.split(' ')[0]`: the name up to its first space, or all of it. */
  function FirstName(name: string): (r: string)
    ensures r <= name
    ensures ' ' !in r
    ensures |r| < |name| ==> name[|r|] == ' '
  {
    if name == [] || name[0] == ' ' then [] else [name[0]] + FirstName(name[1..])
  }

  /** The greeting's tail: `", "` and the first name when the first name is
      not empty; nothing without a user. */
  function NameSuffix(user: Option<User>): (r: string)
    ensures r != "" <==> user.Some? && FirstName(user.value.name) != ""
    ensures r != "" ==> r == ", " + FirstName(user.value.name)
  {
    var firstName := if user.Some? then FirstName(user.value.name) else "";
    if firstName != "" then ", " + firstName else ""
  }

  /** A name that starts with a space has an empty first name, so the
      greeting carries no name. */
  lemma LeadingSpaceGivesNoSuffix(name: string)
    requires name != [] && name[0] == ' '
    ensures NameSuffix(Some(User(name))) == ""
  {
  }

  /** The name in the greeting is a space-free prefix of the user's name,
      which reaches the first space or the end of the name. */
  lemma SuffixNamesUser(name: string)
    requires name != [] && name[0] != ' '
    ensures var suffix := NameSuffix(Some(User(name)));
      |suffix| > 2 && suffix[..2] == ", " && suffix[2..] <= name && ' ' !in suffix[2..]
      && (|suffix| - 2 == |name| || name[|suffix| - 2] == ' ')
  {
    var f := FirstName(name);
    assert f != [];
    assert (", " + f)[2..] == f;
  }

  datatype DayPart = Morning | Afternoon | Evening

  /** The part of the day the greeting names, from `getHours()`: morning
      before noon, afternoon up to and including hour 17, evening after. */
  function DayPartOf(hour: int): (r: DayPart)
    ensures r == Morning <==> hour < 12
    ensures r == Afternoon <==> 12 <= hour <= 17
    ensures r == Evening <==> 17 < hour
  {
    if hour < 12 then Morning
    else if hour >= 12 && hour <= 17 then Afternoon
    else Evening
  }

  /** Over the hours a clock gives, the three greetings split the day at
      noon and at six in the evening. */
  lemma DayPartsPartitionTheDay(hour: int)
    requires 0 <= hour <= 23
    ensures DayPartOf(hour) == Morning <==> hour <= 11
    ensures DayPartOf(hour) == Afternoon <==> 12 <= hour <= 17
    ensures DayPartOf(hour) == Evening <==> 18 <= hour
  {
  }

  /** The greeting's opening words; each part of the day opens with its own
      symbol, and none contains a comma, so the comma of the name suffix is
      the heading's first. */
  function Salutation(part: DayPart): (r: string)
    ensures |r| > 0 && ',' !in r
    ensures forall other: DayPart :: other != part ==> r[0] != SalutationSymbol(other)
  {
    match part
    case Morning => "\U{2615}\U{FE0F} Good morning"
    case Afternoon => "\U{2600}\U{FE0F} Good afternoon"
    case Evening => "\U{1F315} Good evening"
  }

  /** The symbol that opens each part's salutation. */
  function SalutationSymbol(part: DayPart): char {
    match part
    case Morning => '\U{2615}'
    case Afternoon => '\U{2600}'
    case Evening => '\U{1F315}'
  }

  /** The page heading: the salutation for the hour, then `", "` and the
      user's first name when there is one. */
  function Greeting(hour: int, user: Option<User>): (r: string)
    ensures |Salutation(DayPartOf(hour))| <= |r|
    ensures r[..|Salutation(DayPartOf(hour))|] == Salutation(DayPartOf(hour))
    ensures r == Salutation(DayPartOf(hour)) <==> NameSuffix(user) == ""
    ensures user.Some? && FirstName(user.value.name) != "" ==>
      r == Salutation(DayPartOf(hour)) + ", " + FirstName(user.value.name)
  {
    var salutation := Salutation(DayPartOf(hour));
    var suffix := NameSuffix(user);
    assert (salutation + suffix)[..|salutation|] == salutation;
    assert user.Some? ==>
      salutation + ", " + FirstName(user.value.name) == salutation + (", " + FirstName(user.value.name));
    salutation + suffix
  }

  /** The heading can be read back: two equal headings name the same part of
      the day and carry the same name suffix. */
  lemma GreetingDeterminesParts(hour1: int, user1: Option<User>, hour2: int, user2: Option<User>)
    requires Greeting(hour1, user1) == Greeting(hour2, user2)
    ensures DayPartOf(hour1) == DayPartOf(hour2)
    ensures NameSuffix(user1) == NameSuffix(user2)
  {
    var g := Greeting(hour1, user1);
    var s1, s2 := Salutation(DayPartOf(hour1)), Salutation(DayPartOf(hour2));
    assert g[0] == s1[0] && g[0] == s2[0];
    assert DayPartOf(hour1) == DayPartOf(hour2);
    assert g[|s1|..] == NameSuffix(user1) && g[|s1|..] == NameSuffix(user2);
  }

  /** `Array.prototype.filter`: the elements that pass, in their order. */
  function Filter<T(!new)>(s: seq<T>, keep: T -> bool): (r: seq<T>)
    ensures |r| <= |s|
    ensures forall x :: multiset(r)[x] == if keep(x) then multiset(s)[x] else 0
  {
    if s == [] then []
    else
      assert s == [s[0]] + s[1..];
      (if keep(s[0]) then [s[0]] else []) + Filter(s[1..], keep)
  }

  /** Filtering keeps order: the filter of a concatenation is the
      concatenation of the filters. */
  lemma {:induction false} FilterAppend<T(!new)>(a: seq<T>, b: seq<T>, keep: T -> bool)
    ensures Filter(a + b, keep) == Filter(a, keep) + Filter(b, keep)
  {
    if a == [] {
      assert a + b == b;
    } else {
      var head := if keep(a[0]) then [a[0]] else [];
      assert (a + b)[0] == a[0] && (a + b)[1..] == a[1..] + b;
      FilterCons(a + b, keep);
      FilterCons(a, keep);
      FilterAppend(a[1..], b, keep);
      AppendAssoc(head, Filter(a[1..], keep), Filter(b, keep));
    }
  }

  /** One step of `Filter` on a non-empty sequence. */
  lemma FilterCons<T(!new)>(s: seq<T>, keep: T -> bool)
    requires s != []
    ensures Filter(s, keep) == (if keep(s[0]) then [s[0]] else []) + Filter(s[1..], keep)
  {
  }

  lemma AppendAssoc<T>(x: seq<T>, y: seq<T>, z: seq<T>)
    ensures x + (y + z) == (x + y) + z
  {
  }

  /** JavaScript truthiness of an optional string: present and not `""`. */
  predicate Truthy(v: Option<string>) {
    v.Some? && v.value != ""
  }

  predicate HasDue(t: HomeTask) { Truthy(t.due) }
  predicate HasList(t: HomeTask) { Truthy(t.listId) }

  /** The tasks the time view gets. */
  function DueTasks(tasks: seq<HomeTask>): (r: seq<HomeTask>)
    ensures forall t :: t in r <==> t in tasks && Truthy(t.due)
    ensures forall t :: multiset(r)[t] == if Truthy(t.due) then multiset(tasks)[t] else 0
  {
    var r := Filter(tasks, HasDue);
    forall t ensures t in r <==> t in tasks && Truthy(t.due) {
      assert t in r <==> multiset(r)[t] > 0;
      assert t in tasks <==> multiset(tasks)[t] > 0;
    }
    r
  }

  /** The tasks the list view gets. */
  function ListedTasks(tasks: seq<HomeTask>): (r: seq<HomeTask>)
    ensures forall t :: t in r <==> t in tasks && Truthy(t.listId)
    ensures forall t :: multiset(r)[t] == if Truthy(t.listId) then multiset(tasks)[t] else 0
  {
    var r := Filter(tasks, HasList);
    forall t ensures t in r <==> t in tasks && Truthy(t.listId) {
      assert t in r <==> multiset(r)[t] > 0;
      assert t in tasks <==> multiset(tasks)[t] > 0;
    }
    r
  }

  /** Both views keep the store's order: more tasks at the end of the store
      only add tasks at the end of each view. */
  lemma ViewsKeepOrder(tasks: seq<HomeTask>, more: seq<HomeTask>)
    ensures DueTasks(tasks + more) == DueTasks(tasks) + DueTasks(more)
    ensures ListedTasks(tasks + more) == ListedTasks(tasks) + ListedTasks(more)
  {
    FilterAppend(tasks, more, HasDue);
    FilterAppend(tasks, more, HasList);
  }

  class Home {
    /** The task list of the store. */
    var tasks: seq<HomeTask>
    var isLoading: bool
    /** Where `navigate` was last sent, if anywhere. */
    var location: Option<string>

    constructor (tasks: seq<HomeTask>)
      ensures this.tasks == tasks && !isLoading && location == None
    {
      this.tasks := tasks;
      isLoading := false;
      location := None;
    }

    /** The mount effect: a visitor who is not signed in is sent to the
        login page and nothing is fetched; otherwise the fetch starts. */
    method Mount(isAuthenticated: bool) returns (fetchStarted: bool)
      modifies this`isLoading, this`location
      ensures fetchStarted == isAuthenticated
      ensures !isAuthenticated ==> location == Some("/login") && isLoading == old(isLoading)
      ensures isAuthenticated ==> location == old(location) && isLoading
    {
      if !isAuthenticated {
        location := Some("/login");
        return false;
      }
      GetAllTasks();
      fetchStarted := true;
    }

    /** `getAllTasks`: the loading flag goes up as the fetch starts. */
    method GetAllTasks()
      modifies this`isLoading
      ensures isLoading
    {
      isLoading := true;
    }

    /** The fetch settles: the store takes the fetched tasks on success only,
        and the loading flag comes down either way. */
    method SettleGetTasks(result: Settled<seq<HomeTask>>)
      modifies this`tasks, this`isLoading
      ensures !isLoading
      ensures tasks == if result.Fulfilled? then result.value else old(tasks)
    {
      if result.Fulfilled? {
        tasks := result.value;
      }
      isLoading := false;
    }
  }
}
