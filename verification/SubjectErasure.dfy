/** Export and erasure of one person over the table registry, with the foreign keys of the schema. */
module SubjectErasure {
  import opened Wrappers

  /** Every registered table that names a person, the one reached only through its parent, and one
      standing for all tables that hold nothing about anybody. */
  datatype Table =
    | Users | Memberships | RefreshTokens | OrganizationInvitations
    | UserNewsPreferences | UserNewsFeed | NewsArticleMatches | ChatConversations | ChatMessages
    | SearchFeedback | Notifications | AgentRuns | AgentSteps | AgentRecommendations
    | Watchlists | WatchlistEntries | AlertRules | AuditLog | Impersonal

  datatype Link = UserIdInt | UserPublicId | NoLink

  datatype Action = Delete | Anonymise | Retain

  datatype OnUserDelete = Cascade | SetNull | NoForeignKey

  /** The registry in its own order. */
  function Inventory(): seq<Table> {
    [
      Users, Memberships, RefreshTokens, OrganizationInvitations,
      UserNewsPreferences, UserNewsFeed, NewsArticleMatches, ChatConversations, ChatMessages,
      SearchFeedback, Notifications, AgentRuns, AgentSteps, AgentRecommendations,
      Watchlists, WatchlistEntries, AlertRules, AuditLog, Impersonal
    ]
  }

  function Position(table: Table): nat {
    match table
    case Users => 0
    case Memberships => 1
    case RefreshTokens => 2
    case OrganizationInvitations => 3
    case UserNewsPreferences => 4
    case UserNewsFeed => 5
    case NewsArticleMatches => 6
    case ChatConversations => 7
    case ChatMessages => 8
    case SearchFeedback => 9
    case Notifications => 10
    case AgentRuns => 11
    case AgentSteps => 12
    case AgentRecommendations => 13
    case Watchlists => 14
    case WatchlistEntries => 15
    case AlertRules => 16
    case AuditLog => 17
    case Impersonal => 18
  }

  function LinkOf(table: Table): Link {
    match table
    case AgentSteps | Impersonal => NoLink
    case UserNewsPreferences | UserNewsFeed | NewsArticleMatches | ChatConversations | ChatMessages => UserPublicId
    case _ => UserIdInt
  }

  function ActionOf(table: Table): Action {
    match table
    case OrganizationInvitations | AgentRecommendations | Watchlists | WatchlistEntries | AlertRules => Anonymise
    case AgentSteps | AuditLog | Impersonal => Retain
    case _ => Delete
  }

  /** Rows of these tables go with the row they belong to. */
  function ParentOf(table: Table): Option<Table> {
    match table
    case AgentSteps | AgentRecommendations => Some(AgentRuns)
    case _ => None
  }

  function ForeignKeyToUser(table: Table): OnUserDelete {
    match table
    case Memberships | RefreshTokens | SearchFeedback | Notifications | AgentRuns => Cascade
    case OrganizationInvitations | AgentRecommendations | Watchlists | WatchlistEntries | AlertRules => SetNull
    case _ => NoForeignKey
  }

  datatype Value = Nobody | IntId(id: int) | PublicId(text: string)

  datatype User = User(id: int, publicId: string)

  /** A row: whom its link column names, which parent row it belongs to, and the rest. */
  datatype Row = Row(link: Value, parent: Option<int>, rest: int)

  type Rows = map<int, Row>

  type Db = map<Table, Rows>

  predicate Complete(db: Db) {
    forall table: Table :: table in db
  }

  function SubjectValue(user: User, table: Table): Value {
    match LinkOf(table)
    case UserPublicId => PublicId(user.publicId)
    case UserIdInt => IntId(user.id)
    case NoLink => Nobody
  }

  predicate Linked(table: Table) {
    !LinkOf(table).NoLink?
  }

  function Matching(rows: Rows, user: User, table: Table): set<int> {
    set id | id in rows && Linked(table) && rows[id].link == SubjectValue(user, table)
  }

  function Anonymised(rows: Rows, user: User, table: Table): Rows {
    map id | id in rows :: if id in Matching(rows, user, table) then rows[id].(link := Nobody) else rows[id]
  }

  function WithoutChildren(rows: Rows, parents: set<int>): Rows {
    map id | id in rows && !(rows[id].parent.Some? && rows[id].parent.value in parents) :: rows[id]
  }

  /** Delete rows, and with them the rows of other tables that belong to them. */
  function DeleteRows(db: Db, table: Table, victims: set<int>): Db {
    map t | t in db ::
      if t == table then db[t] - victims
      else if ParentOf(t) == Some(table) then WithoutChildren(db[t], victims)
      else db[t]
  }

  /** Delete an account row; its foreign keys act on every table that refers to it. */
  function DeleteAccount(db: Db, user: User): Db
    requires Complete(db)
  {
    if Matching(db[Users], user, Users) == {} then db
    else
      var runs := Matching(db[AgentRuns], user, AgentRuns);
      map t | t in db ::
        var rows := if ParentOf(t) == Some(AgentRuns) then WithoutChildren(db[t], runs) else db[t];
        if t == Users || ForeignKeyToUser(t).Cascade? then rows - Matching(rows, user, t)
        else if ForeignKeyToUser(t).SetNull? then Anonymised(rows, user, t)
        else rows
  }

  // ----- What erasure comes to

  /** The rows of one table that remain once some tables have been dealt with. */
  function Kept(db: Db, user: User, done: set<Table>, table: Table): Rows
    requires Complete(db)
  {
    if ParentOf(table).Some? && ParentOf(table).value in done
    then WithoutChildren(db[table], Matching(db[ParentOf(table).value], user, ParentOf(table).value))
    else db[table]
  }

  function ErasedRows(db: Db, user: User, done: set<Table>, table: Table): Rows
    requires Complete(db)
  {
    var kept := Kept(db, user, done, table);
    if table !in done then kept
    else
      match ActionOf(table)
      case Retain => kept
      case Anonymise => Anonymised(kept, user, table)
      case Delete => kept - Matching(kept, user, table)
  }

  function ErasedIn(db: Db, user: User, done: set<Table>): Db
    requires Complete(db)
  {
    map table | table in db :: ErasedRows(db, user, done, table)
  }

  function AllTables(): set<Table> {
    set i | 0 <= i < |Inventory()| :: Inventory()[i]
  }

  lemma EachHasItsPosition()
    ensures forall i :: 0 <= i < |Inventory()| ==> Position(Inventory()[i]) == i
    ensures forall table: Table :: Position(table) < |Inventory()| && Inventory()[Position(table)] == table
    ensures Position(Users) == 0
  {}

  lemma EveryTableIsRegistered(table: Table)
    ensures Position(table) < |Inventory()| && Inventory()[Position(table)] == table && table in AllTables()
  {
    EachHasItsPosition();
    hide Inventory, Position;
  }

  /** The database after the erasure, table by table and all at once. */
  function Erased(db: Db, user: User): Db
    requires Complete(db)
  {
    ErasedIn(db, user, AllTables())
  }

  /** The subject's rows of one table. */
  function Found(db: Db, user: User, table: Table): Rows
    requires Complete(db)
  {
    map id | id in Matching(db[table], user, table) :: db[table][id]
  }

  /** What an export finds. */
  function Export(db: Db, user: User): map<Table, Rows>
    requires Complete(db)
  {
    map table | table in db && Linked(table) :: Found(db, user, table)
  }

  lemma NoneMatch(rows: Rows, user: User, table: Table)
    requires Linked(table)
    ensures Matching(rows - Matching(rows, user, table), user, table) == {}
    ensures Matching(Anonymised(rows, user, table), user, table) == {}
  {
    assert SubjectValue(user, table) != Nobody;
    var after := Anonymised(rows, user, table);
    forall id | id in after ensures after[id].link != SubjectValue(user, table) {
      assert id in Matching(rows, user, table) || rows[id].link != SubjectValue(user, table);
    }
  }

  lemma NothingMatches(db: Db, user: User, table: Table)
    requires Complete(db) && Linked(table) && !ActionOf(table).Retain?
    ensures Complete(Erased(db, user)) && Matching(Erased(db, user)[table], user, table) == {}
  {
    EveryTableIsRegistered(table);
    NoneMatch(Kept(db, user, AllTables(), table), user, table);
  }

  /** After an erasure an export finds nothing except in the retained tables, which are as they were. */
  lemma ExportAfterErasure(db: Db, user: User, table: Table)
    requires Complete(db) && Linked(table)
    ensures Complete(Erased(db, user))
    ensures Export(Erased(db, user), user)[table] == if ActionOf(table).Retain? then Export(db, user)[table] else map[]
    ensures ActionOf(table).Retain? ==> Erased(db, user)[table] == db[table]
  {
    EveryTableIsRegistered(table);
    var after := Erased(db, user);
    assert after[table] == ErasedRows(db, user, AllTables(), table);
    if !ActionOf(table).Retain? {
      NothingMatches(db, user, table);
    }
  }

  /** Somebody else's row survives unchanged, unless it belonged to a run the subject asked for. */
  lemma OthersAreUntouched(db: Db, user: User, table: Table, id: int)
    requires Complete(db) && id in db[table] && id !in Matching(db[table], user, table)
    ensures Complete(Erased(db, user))
    ensures if ParentOf(table) == Some(AgentRuns) && db[table][id].parent.Some?
                 && db[table][id].parent.value in Matching(db[AgentRuns], user, AgentRuns)
            then id !in Erased(db, user)[table]
            else id in Erased(db, user)[table] && Erased(db, user)[table][id] == db[table][id]
  {
    EveryTableIsRegistered(table);
    EveryTableIsRegistered(AgentRuns);
    hide Inventory, Position, AllTables, LinkOf;
  }

  /** Erasing twice is erasing once. */
  lemma ErasedStaysErased(db: Db, user: User)
    requires Complete(db)
    ensures Complete(Erased(db, user)) && Erased(Erased(db, user), user) == Erased(db, user)
    ensures forall table: Table :: Linked(table) && !ActionOf(table).Retain? ==> Matching(Erased(db, user)[table], user, table) == {}
  {
    var once := Erased(db, user);
    forall table: Table ensures Linked(table) && !ActionOf(table).Retain? ==> Matching(once[table], user, table) == {} {
      if Linked(table) && !ActionOf(table).Retain? { NothingMatches(db, user, table); }
    }
    forall table: Table ensures Erased(once, user)[table] == once[table] {
      EveryTableIsRegistered(table);
      EveryTableIsRegistered(AgentRuns);
      NothingLeft(once, user, table);
    }
  }

  lemma NothingLeft(db: Db, user: User, table: Table)
    requires Complete(db)
    requires forall t: Table :: Linked(t) && !ActionOf(t).Retain? ==> Matching(db[t], user, t) == {}
    ensures Erased(db, user)[table] == db[table]
  {
    EveryTableIsRegistered(table);
    EveryTableIsRegistered(AgentRuns);
    hide Inventory, Position, AllTables;
    assert Matching(db[AgentRuns], user, AgentRuns) == {};
    assert Kept(db, user, AllTables(), table) == db[table];
  }

  // ----- Row by row, told from the schema

  /** The row names the subject: by public id in the tables of news and chat, by number elsewhere. */
  ghost predicate Names(table: Table, row: Row, user: User) {
    if table in {UserNewsPreferences, UserNewsFeed, NewsArticleMatches, ChatConversations, ChatMessages}
    then row.link == PublicId(user.publicId)
    else table != AgentSteps && table != Impersonal && row.link == IntId(user.id)
  }

  /** The row belongs to an agent run the subject asked for. */
  ghost predicate OfOwnRun(db: Db, table: Table, row: Row, user: User)
    requires Complete(db)
  {
    && (table == AgentSteps || table == AgentRecommendations)
    && row.parent.Some? && row.parent.value in db[AgentRuns] && db[AgentRuns][row.parent.value].link == IntId(user.id)
  }

  lemma NamesExactly(rows: Rows, user: User, table: Table, id: int)
    ensures id in Matching(rows, user, table) <==> id in rows && Names(table, rows[id], user)
  {}

  /** What an erasure does to each row. Gone are the account, memberships, sessions, news preferences,
      feeds, matches, conversations, feedback, notifications and runs of the subject, and all that
      belongs to those runs. Invitations, recommendations, watchlists, their entries and alert rules
      stay without the name. Everything else stays as it is. */
  lemma ErasedExactly(db: Db, user: User, table: Table, id: int)
    requires Complete(db)
    ensures Complete(Erased(db, user))
    ensures id in Erased(db, user)[table] <==>
              && id in db[table] && !OfOwnRun(db, table, db[table][id], user)
              && !(Names(table, db[table][id], user)
                   && table in {Users, Memberships, RefreshTokens, UserNewsPreferences, UserNewsFeed, NewsArticleMatches,
                                ChatConversations, ChatMessages, SearchFeedback, Notifications, AgentRuns})
    ensures id in Erased(db, user)[table] ==>
              Erased(db, user)[table][id] ==
                if Names(table, db[table][id], user)
                   && table in {OrganizationInvitations, AgentRecommendations, Watchlists, WatchlistEntries, AlertRules}
                then db[table][id].(link := Nobody) else db[table][id]
  {
    EveryTableIsRegistered(table);
    EveryTableIsRegistered(AgentRuns);
    assert Erased(db, user)[table] == ErasedRows(db, user, AllTables(), table);
    NamesExactly(db[table], user, table, id);
    NamesExactly(Kept(db, user, AllTables(), table), user, table, id);
    KeptExactly(db, user, table, id);
    hide Matching, Names, OfOwnRun, AllTables, Inventory, Position, Kept, LinkOf, ParentOf;
  }

  lemma KeptExactly(db: Db, user: User, table: Table, id: int)
    requires Complete(db)
    ensures var kept := Kept(db, user, AllTables(), table);
            && (id in kept <==> id in db[table] && !OfOwnRun(db, table, db[table][id], user))
            && (id in kept ==> kept[id] == db[table][id])
  {
    EveryTableIsRegistered(AgentRuns);
    hide Inventory, Position, AllTables;
    if id in db[table] && db[table][id].parent.Some? {
      NamesExactly(db[AgentRuns], user, AgentRuns, db[table][id].parent.value);
    }
    hide Matching;
  }

  /** What an export holds: of every table but the two that name nobody, the rows that name the subject. */
  lemma ExportedExactly(db: Db, user: User, table: Table, id: int)
    requires Complete(db)
    ensures table in Export(db, user) <==> table != AgentSteps && table != Impersonal
    ensures table in Export(db, user) ==>
              && (id in Export(db, user)[table] <==> id in db[table] && Names(table, db[table][id], user))
              && (id in Export(db, user)[table] ==> Export(db, user)[table][id] == db[table][id])
  {
    NamesExactly(db[table], user, table, id);
    hide Matching, Names;
  }

  // ----- The loop over the registry

  datatype Receipt = Receipt(deleted: map<Table, nat>, anonymised: map<Table, nat>, retained: map<Table, nat>)

  /** How many rows of a table are the subject's when the loop reaches it: the rows that named the
      subject, less those that went with the subject's own runs. */
  function Reached(db: Db, user: User, table: Table): nat
    requires Complete(db)
  {
    |Matching(Kept(db, user, {AgentRuns}, table), user, table)|
  }

  lemma ParentsAreDeleted()
    ensures forall t: Table :: ParentOf(t).Some? ==> ActionOf(ParentOf(t).value).Delete?
  {}

  lemma DeletingAt(db: Db, user: User, done: set<Table>, table: Table, before: Db, t: Table)
    requires Complete(db) && table !in done && ActionOf(table).Delete? && ParentOf(table).None?
    requires Complete(before) && before[table] == db[table] && before[t] == ErasedRows(db, user, done, t)
    ensures Complete(DeleteRows(before, table, Matching(db[table], user, table)))
    ensures DeleteRows(before, table, Matching(db[table], user, table))[t] == ErasedRows(db, user, done + {table}, t)
  {
    DeletedHere(db, user, done, table);
    if t != table {
      if ParentOf(t) == Some(table) {
        ChildrenGo(db, user, done, table, t);
      } else {
        UnrelatedStays(db, user, done, table, t);
      }
    }
    hide LinkOf, ActionOf, ParentOf, Matching, Anonymised, WithoutChildren, ErasedRows;
  }

  lemma DeletingOneTable(db: Db, user: User, done: set<Table>, table: Table)
    requires Complete(db) && table !in done && ActionOf(table).Delete? && ParentOf(table).None?
    ensures Complete(ErasedIn(db, user, done)) && ErasedIn(db, user, done)[table] == db[table]
    ensures DeleteRows(ErasedIn(db, user, done), table, Matching(db[table], user, table)) == ErasedIn(db, user, done + {table})
  {
    DeletedHere(db, user, done, table);
    hide LinkOf, ActionOf, ParentOf, Matching, Anonymised, WithoutChildren, ErasedRows, DeleteRows;
    var before := ErasedIn(db, user, done);
    var after := DeleteRows(before, table, Matching(db[table], user, table));
    forall t: Table ensures t in after && after[t] == ErasedRows(db, user, done + {table}, t) {
      DeletingAt(db, user, done, table, before, t);
    }
  }

  lemma DeletedHere(db: Db, user: User, done: set<Table>, table: Table)
    requires Complete(db) && table !in done && ActionOf(table).Delete? && ParentOf(table).None?
    ensures ErasedRows(db, user, done, table) == db[table]
    ensures ErasedRows(db, user, done + {table}, table) == db[table] - Matching(db[table], user, table)
  {
    hide LinkOf, ActionOf, ParentOf, Matching, Anonymised, WithoutChildren;
  }

  lemma UnrelatedStays(db: Db, user: User, done: set<Table>, table: Table, other: Table)
    requires Complete(db) && other != table && ParentOf(other) != Some(table)
    ensures ErasedRows(db, user, done + {table}, other) == ErasedRows(db, user, done, other)
  {
    hide LinkOf, ActionOf, ParentOf, Matching, Anonymised, WithoutChildren;
  }

  lemma ChildrenGo(db: Db, user: User, done: set<Table>, table: Table, child: Table)
    requires Complete(db) && table !in done && ParentOf(child) == Some(table) && child != table
    ensures WithoutChildren(ErasedRows(db, user, done, child), Matching(db[table], user, table)) == ErasedRows(db, user, done + {table}, child)
  {
    var victims := Matching(db[table], user, table);
    AnonymisingCommutes(db[child], user, child, victims);
    assert Kept(db, user, done, child) == db[child] && Kept(db, user, done + {table}, child) == WithoutChildren(db[child], victims);
  }

  lemma AnonymisingCommutes(rows: Rows, user: User, table: Table, victims: set<int>)
    ensures WithoutChildren(Anonymised(rows, user, table), victims) == Anonymised(WithoutChildren(rows, victims), user, table)
  {
    var left := WithoutChildren(rows, victims);
    assert forall id :: id in left ==> (id in Matching(left, user, table) <==> id in Matching(rows, user, table));
  }

  lemma AnonymisedHere(db: Db, user: User, done: set<Table>, table: Table)
    requires Complete(db) && table !in done && ActionOf(table).Anonymise?
    ensures ErasedRows(db, user, done + {table}, table) == Anonymised(ErasedRows(db, user, done, table), user, table)
  {
    ParentsAreDeleted();
    hide LinkOf, ActionOf, ParentOf, Matching, Anonymised, WithoutChildren;
  }

  lemma AnonymisingOneTable(db: Db, user: User, done: set<Table>, table: Table)
    requires Complete(db) && table !in done && ActionOf(table).Anonymise?
    ensures ErasedIn(db, user, done)[table := Anonymised(ErasedRows(db, user, done, table), user, table)] == ErasedIn(db, user, done + {table})
  {
    ParentsAreDeleted();
    AnonymisedHere(db, user, done, table);
    hide LinkOf, ActionOf, ParentOf, Matching, Anonymised, WithoutChildren, ErasedRows;
    var after := ErasedIn(db, user, done)[table := Anonymised(ErasedRows(db, user, done, table), user, table)];
    forall t: Table ensures after[t] == ErasedRows(db, user, done + {table}, t) {
      if t != table { UnrelatedStays(db, user, done, table, t); }
    }
  }

  lemma RetainingOneTable(db: Db, user: User, done: set<Table>, table: Table)
    requires Complete(db) && ActionOf(table).Retain?
    ensures ErasedIn(db, user, done) == ErasedIn(db, user, done + {table})
  {
    hide LinkOf, ActionOf, ParentOf, Matching, Anonymised, WithoutChildren;
    ParentsAreDeleted();
    forall t: Table ensures ErasedRows(db, user, done, t) == ErasedRows(db, user, done + {table}, t) {
      if t != table { UnrelatedStays(db, user, done, table, t); }
    }
  }

  /** By the time the account goes, its foreign keys have nothing left to act on. */
  lemma AccountGoesAlone(db: Db, user: User)
    requires Complete(db)
    ensures var before := ErasedIn(db, user, AllTables() - {Users});
            Complete(before) && Complete(Erased(db, user)) && DeleteAccount(before, user) == Erased(db, user) && before[Users] == db[Users]
  {
    var before := ErasedIn(db, user, AllTables() - {Users});
    EveryTableIsRegistered(Users);
    EveryTableIsRegistered(AgentRuns);
    NoneMatch(db[AgentRuns], user, AgentRuns);
    assert Matching(before[AgentRuns], user, AgentRuns) == {};
    AccountItself(db, user);
    forall t: Table ensures DeleteAccount(before, user)[t] == Erased(db, user)[t] {
      if t != Users { AccountRow(db, user, before, t); }
    }
  }

  lemma AccountChangesNothingElse(db: Db, user: User, table: Table)
    requires Complete(db) && table != Users
    ensures ErasedRows(db, user, AllTables() - {Users}, table) == ErasedRows(db, user, AllTables(), table)
  {
    hide Matching, Anonymised, WithoutChildren, AllTables;
  }

  /** Where no row refers to the account any more, deleting it touches no other table. */
  lemma AccountIsAlone(db: Db, user: User, table: Table)
    requires Complete(db) && table != Users && Matching(db[AgentRuns], user, AgentRuns) == {}
    requires !ForeignKeyToUser(table).NoForeignKey? ==> Matching(db[table], user, table) == {}
    ensures DeleteAccount(db, user)[table] == db[table]
  {
    hide Matching, Anonymised, WithoutChildren;
    WithoutNobody(db[table]);
    if !ForeignKeyToUser(table).NoForeignKey? {
      AnonymisedAlready(db[table], user, table);
    }
  }

  lemma AccountRow(db: Db, user: User, before: Db, table: Table)
    requires Complete(db) && Complete(before) && before == ErasedIn(db, user, AllTables() - {Users}) && table != Users
    requires Matching(before[AgentRuns], user, AgentRuns) == {}
    ensures Complete(Erased(db, user)) && DeleteAccount(before, user)[table] == Erased(db, user)[table]
  {
    AccountChangesNothingElse(db, user, table);
    hide Matching, Anonymised, WithoutChildren, AllTables, ErasedRows, DeleteAccount;
    assert before[table] == Erased(db, user)[table];
    if !ForeignKeyToUser(table).NoForeignKey? {
      NothingMatches(db, user, table);
    }
    AccountIsAlone(before, user, table);
  }

  lemma AccountItself(db: Db, user: User)
    requires Complete(db)
    ensures var before := ErasedIn(db, user, AllTables() - {Users});
            Complete(before) && before[Users] == db[Users] && DeleteAccount(before, user)[Users] == Erased(db, user)[Users]
  {
    EveryTableIsRegistered(Users);
    hide WithoutChildren, AllTables;
  }

  lemma WithoutNobody(rows: Rows)
    ensures WithoutChildren(rows, {}) == rows
  {}

  lemma AnonymisedAlready(rows: Rows, user: User, table: Table)
    requires Matching(rows, user, table) == {}
    ensures Anonymised(rows, user, table) == rows
  {}

  function RegisteredBefore(i: nat): set<Table>
    requires i <= |Inventory()|
  {
    set k | 0 <= k < i :: Inventory()[k]
  }

  lemma NextTable(i: nat)
    requires i < |Inventory()|
    ensures RegisteredBefore(i + 1) == RegisteredBefore(i) + {Inventory()[i]} && Inventory()[i] !in RegisteredBefore(i)
    ensures Inventory()[i] == Users <==> i == 0
  {
    EachHasItsPosition();
    hide Inventory, Position;
    forall k | 0 <= k < i ensures Inventory()[k] != Inventory()[i] {
      assert Position(Inventory()[k]) == k;
    }
  }

  lemma ReachedAtItsTurn(db: Db, user: User, i: nat)
    requires Complete(db) && i < |Inventory()|
    ensures var before := ErasedIn(db, user, RegisteredBefore(i) - {Users});
            Complete(before) && |Matching(before[Inventory()[i]], user, Inventory()[i])| == Reached(db, user, Inventory()[i])
  {
    NextTable(i);
    var table := Inventory()[i];
    if ParentOf(table).Some? {
      assert Position(table) == i;
      assert Inventory()[11] == AgentRuns;
    }
  }

  /** What an export holds once some tables have been read. */
  function ExportOf(db: Db, user: User, read: set<Table>): map<Table, Rows>
    requires Complete(db)
  {
    map table | table in read && Linked(table) :: Found(db, user, table)
  }

  lemma ReadOne(db: Db, user: User, read: set<Table>, table: Table)
    requires Complete(db)
    ensures ExportOf(db, user, read + {table}) ==
              if Linked(table) then ExportOf(db, user, read)[table := Found(db, user, table)] else ExportOf(db, user, read)
  {
    hide Found, LinkOf;
  }

  lemma NothingRead(db: Db, user: User)
    requires Complete(db)
    ensures ExportOf(db, user, RegisteredBefore(0)) == map[]
  {}

  lemma EverythingRead(db: Db, user: User)
    requires Complete(db)
    ensures ExportOf(db, user, RegisteredBefore(|Inventory()|)) == Export(db, user)
  {
    hide Inventory, Position, LinkOf, Matching;
    forall table: Table ensures table in RegisteredBefore(|Inventory()|) {
      EveryTableIsRegistered(table);
    }
  }

  /** The session of one erasure. */
  class SubjectStore {
    var tables: Db

    ghost predicate Valid()
      reads this
    {
      Complete(tables)
    }

    constructor (tables: Db)
      requires Complete(tables)
      ensures Valid() && this.tables == tables
    {
      this.tables := tables;
    }

    method ExportSubject(user: User) returns (found: map<Table, Rows>)
      requires Valid()
      ensures found == Export(tables, user)
    {
      hide Inventory, Position, RegisteredBefore, ExportOf, Found, Matching, LinkOf;
      found := map[];
      NothingRead(tables, user);
      var i := 0;
      while i < |Inventory()|
        invariant i <= |Inventory()| && found == ExportOf(tables, user, RegisteredBefore(i))
      {
        var table := Inventory()[i];
        NextTable(i);
        ReadOne(tables, user, RegisteredBefore(i), table);
        if Linked(table) {
          found := found[table := Found(tables, user, table)];
        }
        i := i + 1;
      }
      EverythingRead(tables, user);
    }

    /** Walk the registry; the account itself goes last. */
    method EraseSubject(user: User) returns (receipt: Receipt)
      requires Valid()
      modifies this
      ensures Valid() && tables == Erased(old(tables), user)
      ensures receipt.deleted == Counted(old(tables), user, AllTables(), Delete)
      ensures receipt.anonymised == Counted(old(tables), user, AllTables(), Anonymise)
      ensures receipt.retained == Counted(old(tables), user, AllTables(), Retain)
    {
      hide Matching, Reached, Anonymised, DeleteRows, DeleteAccount, ErasedIn, ErasedRows, Counted, Position, Inventory;
      ghost var db := tables;
      var deleted, anonymised, retained := map[], map[], map[];
      NothingErased(db, user);
      var i := 0;
      while i < |Inventory()|
        invariant i <= |Inventory()| && Complete(tables)
        invariant tables == ErasedIn(db, user, RegisteredBefore(i) - {Users})
        invariant deleted == Counted(db, user, RegisteredBefore(i) - {Users}, Delete)
        invariant anonymised == Counted(db, user, RegisteredBefore(i) - {Users}, Anonymise)
        invariant retained == Counted(db, user, RegisteredBefore(i) - {Users}, Retain)
      {
        ghost var done := RegisteredBefore(i) - {Users};
        var table := Inventory()[i];
        NextTable(i);
        assert RegisteredBefore(i + 1) - {Users} == if table == Users then done else done + {table};
        CountOne(db, user, done, table, Delete);
        CountOne(db, user, done, table, Anonymise);
        CountOne(db, user, done, table, Retain);
        ReachedAtItsTurn(db, user, i);
        var matches := Matching(tables[table], user, table);
        if !Linked(table) {
          RetainingOneTable(db, user, done, table);
        } else if ActionOf(table).Retain? {
          RetainingOneTable(db, user, done, table);
          retained := retained[table := |matches|];
        } else if ActionOf(table).Anonymise? {
          AnonymisingOneTable(db, user, done, table);
          ErasedHere(db, user, done, table);
          tables := tables[table := Anonymised(tables[table], user, table)];
          anonymised := anonymised[table := |matches|];
        } else if table != Users {
          DeletingOneTable(db, user, done, table);
          tables := DeleteRows(tables, table, matches);
          deleted := deleted[table := |matches|];
        }
        i := i + 1;
        ErasedHere(db, user, RegisteredBefore(i) - {Users}, table);
      }
      EverythingRegistered();
      AccountGoesAlone(db, user);
      CountOne(db, user, AllTables() - {Users}, Users, Delete);
      CountOne(db, user, AllTables() - {Users}, Users, Anonymise);
      CountOne(db, user, AllTables() - {Users}, Users, Retain);
      ReachedUsers(db, user);
      var account := Matching(tables[Users], user, Users);
      tables := DeleteAccount(tables, user);
      deleted := deleted[Users := |account|];
      receipt := Receipt(deleted, anonymised, retained);
    }
  }

  function Counted(db: Db, user: User, done: set<Table>, action: Action): map<Table, nat>
    requires Complete(db)
  {
    map table | table in done && Linked(table) && ActionOf(table) == action :: Reached(db, user, table)
  }

  /** What the receipt says of a table: how many of its rows named the subject and did not go with a run
      of the subject's, under the one heading that says what became of them. */
  lemma CountedExactly(db: Db, user: User, table: Table, action: Action)
    requires Complete(db)
    ensures table in Counted(db, user, AllTables(), action) <==>
              if table in {OrganizationInvitations, AgentRecommendations, Watchlists, WatchlistEntries, AlertRules} then action == Anonymise
              else if table == AuditLog then action == Retain
              else table != AgentSteps && table != Impersonal && action == Delete
    ensures table in Counted(db, user, AllTables(), action) ==>
              Counted(db, user, AllTables(), action)[table] ==
                |set id | id in db[table] && Names(table, db[table][id], user) && !OfOwnRun(db, table, db[table][id], user)|
  {
    EveryTableIsRegistered(table);
    hide Inventory, Position, AllTables;
    if table in Counted(db, user, AllTables(), action) {
      ReachedExactly(db, user, table);
    }
  }

  lemma ReachedExactly(db: Db, user: User, table: Table)
    requires Complete(db)
    ensures Reached(db, user, table) == |set id | id in db[table] && Names(table, db[table][id], user) && !OfOwnRun(db, table, db[table][id], user)|
  {
    var kept := Kept(db, user, {AgentRuns}, table);
    var counted := set id | id in db[table] && Names(table, db[table][id], user) && !OfOwnRun(db, table, db[table][id], user);
    forall id ensures id in Matching(kept, user, table) <==> id in counted {
      NamesExactly(kept, user, table, id);
      KeptExactly(db, user, table, id);
      SameKept(db, user, table);
    }
    assert Matching(kept, user, table) == counted;
  }

  lemma SameKept(db: Db, user: User, table: Table)
    requires Complete(db)
    ensures Kept(db, user, {AgentRuns}, table) == Kept(db, user, AllTables(), table)
  {
    EveryTableIsRegistered(AgentRuns);
    hide Inventory, Position, AllTables;
  }

  lemma CountOne(db: Db, user: User, done: set<Table>, table: Table, action: Action)
    requires Complete(db)
    ensures Counted(db, user, done + {table}, action) ==
              if Linked(table) && ActionOf(table) == action then Counted(db, user, done, action)[table := Reached(db, user, table)]
              else Counted(db, user, done, action)
  {
    hide Reached;
  }

  lemma NothingErased(db: Db, user: User)
    requires Complete(db)
    ensures ErasedIn(db, user, RegisteredBefore(0) - {Users}) == db
    ensures forall action :: Counted(db, user, RegisteredBefore(0) - {Users}, action) == map[]
  {
    assert RegisteredBefore(0) - {Users} == {};
  }

  lemma EverythingRegistered()
    ensures RegisteredBefore(|Inventory()|) == AllTables() == (AllTables() - {Users}) + {Users}
  {
    EveryTableIsRegistered(Users);
  }

  lemma ReachedUsers(db: Db, user: User)
    requires Complete(db)
    ensures |Matching(db[Users], user, Users)| == Reached(db, user, Users)
  {}

  lemma ErasedHere(db: Db, user: User, done: set<Table>, table: Table)
    requires Complete(db)
    ensures Complete(ErasedIn(db, user, done)) && ErasedIn(db, user, done)[table] == ErasedRows(db, user, done, table)
  {}

  /** A second erasure deletes and anonymises nothing. */
  lemma SecondErasureFindsNothing(db: Db, user: User)
    requires Complete(db)
    ensures Complete(Erased(db, user)) && Erased(Erased(db, user), user) == Erased(db, user)
    ensures forall table :: table in Counted(Erased(db, user), user, AllTables(), Delete) ==>
              Counted(Erased(db, user), user, AllTables(), Delete)[table] == 0
    ensures forall table :: table in Counted(Erased(db, user), user, AllTables(), Anonymise) ==>
              Counted(Erased(db, user), user, AllTables(), Anonymise)[table] == 0
  {
    ErasedStaysErased(db, user);
    var once := Erased(db, user);
    forall table: Table | Linked(table) && !ActionOf(table).Retain? ensures Reached(once, user, table) == 0 {
      var kept := Kept(once, user, {AgentRuns}, table);
      assert Matching(once[table], user, table) == {};
      WithoutNobody(once[table]);
      assert kept == once[table];
    }
    hide Reached, Erased, Complete;
  }
}
