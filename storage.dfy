/** The in-memory store behind the API: a mutable table of users keyed by id,
    kept in insertion order as a JavaScript `Map` is, beside five read-only
    collections of portfolio records seeded at construction. */
module Storage {
  import opened Wrappers
  import opened Schema

  // ---------------------------------------------------------------------------
  // The seeded collections (never written after construction)

  const Experiences: seq<Experience> := [
    Experience(1.0, "AngelOne", "Software Engineer 2", "2024 - Present", 95.0,
      ["Built analytics platform for 190K+ users",
       "Improved Core Web Vitals by 41%",
       "Led Svelte 5 migration for 10+ modules"],
      None, 0.0),
    Experience(2.0, "Innovaccer", "Software Engineer 2", "2021 - 2024", 88.0,
      ["Led PRM tool development end-to-end",
       "Built Smart Assist with OpenAI APIs",
       "Mentored 2 developers with comprehensive training"],
      None, 1.0),
    Experience(3.0, "Internshala", "Software Developer", "2020 - 2021", 82.0,
      ["Developed JOS product contributing 5% revenue",
       "Increased enrollment rates by 22.56%",
       "Boosted certificate shares from 30% to 45.62%"],
      None, 2.0)
  ]

  const Skills: seq<Skill> := [
    Skill(1.0, "React", 93.0, Frontend),
    Skill(2.0, "JavaScript", 95.0, Frontend),
    Skill(3.0, "Svelte", 90.0, Frontend),
    Skill(4.0, "TypeScript", 88.0, Frontend),
    Skill(5.0, "Node.js", 85.0, Backend),
    Skill(6.0, "CSS/Tailwind", 92.0, Frontend)
  ]

  const ProjectCards: seq<ProjectCard> := [
    ProjectCard(1.0, "Trading Analytics", "190K+ Users", "card-mint", "📊"),
    ProjectCard(2.0, "Performance Boost", "41% Faster", "card-yellow", "🚀"),
    ProjectCard(3.0, "Smart Assist AI", "18% Engagement", "card-purple", "🤖"),
    ProjectCard(4.0, "Enrollment Growth", "22.56% Increase", "card-coral", "📈"),
    ProjectCard(5.0, "Module Migration", "10+ Modules", "card-blue", "🔄"),
    ProjectCard(6.0, "Revenue Impact", "5% Monthly", "card-green", "💰")
  ]

  const NewsItems: seq<NewsItem> := [
    NewsItem(1.0, "AngelOne Platform", "Trading Analytics Platform", "Built for 190K+ monthly active users", "card-coral"),
    NewsItem(2.0, "Performance Expert", "Core Web Vitals", "41% improvement in FCP, LCP, CRP", "card-blue"),
    NewsItem(3.0, "AI Integration", "Smart Assist Feature", "18% increase in user engagement", "card-green"),
    NewsItem(4.0, "Team Leadership", "Mentorship & Guidance", "Led and mentored 2 developers", "card-purple")
  ]

  const Projects: seq<Project> := [
    Project(1.0, "AngelOne Trading Platform", "2024", "#"),
    Project(2.0, "Patient Relations Management", "2023", "#"),
    Project(3.0, "Smart Assist AI", "2022", "#"),
    Project(4.0, "Job Oriented Specialization", "2021", "#"),
    Project(5.0, "Micro Frontend Architecture", "2022", "#")
  ]

  /** Each seeded experience carries its own position as `index`, and every
      one of them satisfies the experience schema. */
  lemma SeededExperiencesValid()
    ensures |Experiences| == 3
    ensures forall i :: 0 <= i < |Experiences| ==> Experiences[i].index == i as real
    ensures forall i :: 0 <= i < |Experiences| ==>
      ParseExperience(ExperienceToJson(Experiences[i])) == Some(Experiences[i])
  {
    forall i | 0 <= i < |Experiences|
      ensures ParseExperience(ExperienceToJson(Experiences[i])) == Some(Experiences[i])
    {
      ExperienceRoundTrip(Experiences[i]);
    }
  }

  /** The six seeded skills are rated between 85 and 95 and every one of them
      satisfies the skill schema. */
  lemma SeededSkillsValid()
    ensures |Skills| == 6
    ensures forall i :: 0 <= i < |Skills| ==> 85.0 <= Skills[i].rating <= 95.0
    ensures forall i :: 0 <= i < |Skills| ==> ParseSkill(SkillToJson(Skills[i])) == Some(Skills[i])
  {
    forall i | 0 <= i < |Skills|
      ensures ParseSkill(SkillToJson(Skills[i])) == Some(Skills[i])
    {
      SkillRoundTrip(Skills[i]);
    }
  }

  /** The remaining seeded records satisfy their schemas. */
  lemma SeededRecordsValid()
    ensures forall c :: c in ProjectCards ==> ParseProjectCard(ProjectCardToJson(c)) == Some(c)
    ensures forall n :: n in NewsItems ==> ParseNewsItem(NewsItemToJson(n)) == Some(n)
    ensures forall p :: p in Projects ==> ParseProject(ProjectToJson(p)) == Some(p)
  {
    forall c | c in ProjectCards ensures ParseProjectCard(ProjectCardToJson(c)) == Some(c) {
      ProjectCardRoundTrip(c);
    }
    forall n | n in NewsItems ensures ParseNewsItem(NewsItemToJson(n)) == Some(n) {
      NewsItemRoundTrip(n);
    }
    forall p | p in Projects ensures ParseProject(ProjectToJson(p)) == Some(p) {
      ProjectRoundTrip(p);
    }
  }

  // ---------------------------------------------------------------------------
  // Looking up a user by username

  /** `find` over the users in order: the first one with this username. */
  function FindByUsername(users: seq<User>, username: string): (r: Option<User>)
    ensures r.Some? ==> r.value in users && r.value.username == username
  {
    if users == [] then None
    else if users[0].username == username then Some(users[0])
    else FindByUsername(users[1..], username)
  }

  /** The lookup answers with the earliest user carrying the username, and
      with nothing exactly when no user carries it. */
  lemma {:induction false} FindByUsernameIsFirstMatch(users: seq<User>, username: string)
    ensures FindByUsername(users, username).None? <==>
      forall i :: 0 <= i < |users| ==> users[i].username != username
    ensures FindByUsername(users, username).Some? ==>
      exists i :: 0 <= i < |users| && users[i] == FindByUsername(users, username).value &&
        users[i].username == username &&
        forall j :: 0 <= j < i ==> users[j].username != username
  {
    if users != [] && users[0].username != username {
      FindByUsernameIsFirstMatch(users[1..], username);
      var r := FindByUsername(users, username);
      if r.Some? {
        var i :| 0 <= i < |users[1..]| && users[1..][i] == r.value && users[1..][i].username == username &&
          forall j :: 0 <= j < i ==> users[1..][j].username != username;
        assert users[i + 1] == r.value;
        assert forall j :: 0 <= j < i + 1 ==> users[j].username != username by {
          forall j | 0 <= j < i + 1 ensures users[j].username != username {
            if j > 0 { assert users[j] == users[1..][j - 1]; }
          }
        }
      } else {
        forall i | 0 <= i < |users| ensures users[i].username != username {
          if i > 0 { assert users[i] == users[1..][i - 1]; }
        }
      }
    }
  }

  /** Adding a user at the end never changes an answer the lookup already
      gives; it can only answer a username nobody had before. */
  lemma {:induction false} FindByUsernameAfterAppend(users: seq<User>, u: User, username: string)
    ensures FindByUsername(users + [u], username) ==
      if FindByUsername(users, username).Some? then FindByUsername(users, username)
      else if u.username == username then Some(u)
      else None
  {
    if users == [] {
      assert users + [u] == [u];
    } else {
      assert (users + [u])[1..] == users[1..] + [u];
      FindByUsernameAfterAppend(users[1..], u, username);
    }
  }

  // ---------------------------------------------------------------------------
  // The store

  class MemStorage {
    /** The users table, keyed by id. */
    var users: map<string, User>
    /** The table's keys in insertion order, the order a `Map` iterates in. */
    var order: seq<string>

    ghost predicate Valid()
      reads this
    {
      && (forall i, j :: 0 <= i < j < |order| ==> order[i] != order[j])
      && (forall id :: id in users <==> id in order)
      && (forall id :: id in users ==> users[id].id == id)
    }

    /** `Array.from(this.users.values())`: the users in insertion order. */
    function Values(): (vs: seq<User>)
      reads this
      requires Valid()
      ensures |vs| == |order|
      ensures forall i :: 0 <= i < |order| ==> order[i] in users && vs[i] == users[order[i]]
    {
      assert forall i :: 0 <= i < |order| ==> order[i] in users;
      seq(|order|, i requires 0 <= i < |order| && order[i] in users reads this => users[order[i]])
    }

    /** A new store: no users at all. */
    constructor ()
      ensures Valid()
      ensures users == map[] && order == []
      ensures forall id :: GetUser(id) == None
    {
      users := map[];
      order := [];
    }

    /** `getUser`: the user stored under `id`, if any. */
    function GetUser(id: string): (r: Option<User>)
      reads this
      requires Valid()
      ensures r.Some? <==> id in users
      ensures r.Some? ==> r.value == users[id] && r.value.id == id
    {
      if id in users then Some(users[id]) else None
    }

    /** `getUserByUsername`: a scan of the users in insertion order that stops
        at the first one with this username. */
    method GetUserByUsername(username: string) returns (r: Option<User>)
      requires Valid()
      ensures r == FindByUsername(Values(), username)
      ensures r.Some? ==> r.value.username == username && r.value.id in users && users[r.value.id] == r.value
      ensures r.None? <==> forall id :: id in users ==> users[id].username != username
    {
      ghost var vs := Values();
      var i := 0;
      while i < |order|
        invariant 0 <= i <= |order|
        invariant forall j :: 0 <= j < i ==> vs[j].username != username
        invariant FindByUsername(vs, username) == FindByUsername(vs[i..], username)
      {
        var u := users[order[i]];
        if u.username == username {
          return Some(u);
        }
        assert vs[i..][1..] == vs[i + 1..];
        i := i + 1;
      }
      forall id | id in users ensures users[id].username != username {
        assert id in order;
        var k :| 0 <= k < |order| && order[k] == id;
        assert vs[k] == users[id];
      }
      return None;
    }

    /** `createUser`: stores the record under a new id and returns it. The id
        comes from the caller in place of a random UUID, so it must be unused.
        Usernames are not checked: two users may share one. */
    method CreateUser(insertUser: InsertUser, id: string) returns (user: User)
      requires Valid()
      requires id !in users
      modifies this
      ensures Valid()
      ensures user == User(id, insertUser.username, insertUser.password)
      ensures users == old(users)[id := user]
      ensures order == old(order) + [id]
      ensures forall other :: other != id ==> GetUser(other) == old(GetUser(other))
      ensures GetUser(id) == Some(user)
      ensures Values() == old(Values()) + [user]
    {
      user := User(id, insertUser.username, insertUser.password);
      users := users[id := user];
      order := order + [id];
    }

    method GetExperiences() returns (r: seq<Experience>)
      ensures r == Experiences
    {
      r := Experiences;
    }

    method GetSkills() returns (r: seq<Skill>)
      ensures r == Skills
    {
      r := Skills;
    }

    method GetProjectCards() returns (r: seq<ProjectCard>)
      ensures r == ProjectCards
    {
      r := ProjectCards;
    }

    method GetNewsItems() returns (r: seq<NewsItem>)
      ensures r == NewsItems
    {
      r := NewsItems;
    }

    method GetProjects() returns (r: seq<Project>)
      ensures r == Projects
    {
      r := Projects;
    }
  }

  /** Two users created with the same username are both stored, and the
      lookup by username keeps answering with the first of them. */
  method CreateSameUsernameTwice(store: MemStorage, insertUser: InsertUser, firstId: string, secondId: string)
    returns (first: User, second: User, found: Option<User>)
    requires store.Valid()
    requires firstId !in store.users && secondId !in store.users && firstId != secondId
    requires forall id :: id in store.users ==> store.users[id].username != insertUser.username
    modifies store
    ensures store.Valid()
    ensures first.username == second.username == insertUser.username && first != second
    ensures store.GetUser(firstId) == Some(first) && store.GetUser(secondId) == Some(second)
    ensures found == Some(first)
  {
    ghost var before := store.Values();
    FindByUsernameIsFirstMatch(before, insertUser.username);
    first := store.CreateUser(insertUser, firstId);
    FindByUsernameAfterAppend(before, first, insertUser.username);
    ghost var middle := store.Values();
    second := store.CreateUser(insertUser, secondId);
    FindByUsernameAfterAppend(middle, second, insertUser.username);
    found := store.GetUserByUsername(insertUser.username);
  }
}
