/** The shared record schemas. Each zod object schema is a parser from a JSON
    value to the typed record (or failure), which keeps only the schema's own
    keys; each record type has an encoder back to JSON. The typed records are
    the ones the store and the API hand out. */
module Schema {
  import opened Wrappers

  /** A JSON value as a schema receives it. Numbers are exact reals. */
  datatype Json =
    | JNull
    | JBool(b: bool)
    | JNumber(n: real)
    | JString(s: string)
    | JArray(items: seq<Json>)
    | JObject(fields: map<string, Json>)

  /** The values of the skill-category enumeration. */
  datatype Category = Frontend | Backend | Tools | Other

  /** A row of the `users` table; `id` is its primary key. */
  datatype User = User(id: string, username: string, password: string)

  /** What `insertUserSchema` accepts: the user columns without the id. */
  datatype InsertUser = InsertUser(username: string, password: string)

  datatype Experience = Experience(
    id: real,
    company: string,
    role: string,
    period: string,
    rating: real,
    highlights: seq<string>,
    imageUrl: Option<string>,
    index: real)

  datatype Skill = Skill(id: real, name: string, rating: real, category: Category)

  datatype ProjectCard = ProjectCard(id: real, title: string, metric: string, color: string, icon: string)

  datatype NewsItem = NewsItem(id: real, title: string, description: string, detail: string, color: string)

  datatype Project = Project(id: real, name: string, period: string, link: string)

  /** `z.number().min(0).max(100)`: both bounds inclusive. */
  predicate RatingInRange(rating: real) {
    0.0 <= rating <= 100.0
  }

  /** The part of an object a schema keeps: the listed keys that are present. */
  function Restrict(fields: map<string, Json>, keys: set<string>): (r: map<string, Json>)
    ensures r.Keys == fields.Keys * keys
    ensures forall k :: k in r ==> r[k] == fields[k]
  {
    map k | k in fields && k in keys :: fields[k]
  }

  // ---------------------------------------------------------------------------
  // Field readers: one per zod field type

  /** `z.number()` on a required key. */
  function NumberField(fields: map<string, Json>, key: string): (r: Option<real>)
    ensures r.Some? <==> key in fields && fields[key].JNumber?
    ensures r.Some? ==> fields[key] == JNumber(r.value)
  {
    if key in fields && fields[key].JNumber? then Some(fields[key].n) else None
  }

  /** `z.string()` on a required key. */
  function StringField(fields: map<string, Json>, key: string): (r: Option<string>)
    ensures r.Some? <==> key in fields && fields[key].JString?
    ensures r.Some? ==> fields[key] == JString(r.value)
  {
    if key in fields && fields[key].JString? then Some(fields[key].s) else None
  }

  /** `z.string().optional()`: an absent key reads as no value; a present one
      must be a string. */
  function OptionalStringField(fields: map<string, Json>, key: string): (r: Option<Option<string>>)
    ensures r.Some? <==> (key in fields ==> fields[key].JString?)
    ensures r.Some? && r.value.None? <==> key !in fields
    ensures r.Some? && r.value.Some? ==> key in fields && fields[key] == JString(r.value.value)
  {
    if key !in fields then Some(None)
    else if fields[key].JString? then Some(Some(fields[key].s))
    else None
  }

  /** `z.array(z.string())` on the items of an array. */
  function StringItems(items: seq<Json>): (r: Option<seq<string>>)
    ensures r.Some? <==> forall i :: 0 <= i < |items| ==> items[i].JString?
    ensures r.Some? ==> |r.value| == |items| && forall i :: 0 <= i < |items| ==> items[i] == JString(r.value[i])
  {
    if items == [] then Some([])
    else if !items[0].JString? then None
    else
      match StringItems(items[1..])
      case None => None
      case Some(rest) => Some([items[0].s] + rest)
  }

  /** `z.array(z.string())` on a required key. */
  function StringArrayField(fields: map<string, Json>, key: string): (r: Option<seq<string>>)
    ensures r.Some? ==> key in fields && fields[key] == StringsToJson(r.value)
    ensures key !in fields || !fields[key].JArray? ==> r.None?
  {
    if key in fields && fields[key].JArray? then
      var items := fields[key].items;
      match StringItems(items)
      case None => None
      case Some(strings) =>
        assert StringsToJson(strings).items == items;
        Some(strings)
    else None
  }

  function StringsToJson(strings: seq<string>): (j: Json)
    ensures j.JArray? && |j.items| == |strings|
    ensures forall i :: 0 <= i < |strings| ==> j.items[i] == JString(strings[i])
  {
    JArray(seq(|strings|, i requires 0 <= i < |strings| => JString(strings[i])))
  }

  /** Reading back an encoded string array gives the strings. */
  lemma StringArrayRoundTrip(strings: seq<string>, fields: map<string, Json>, key: string)
    requires key in fields && fields[key] == StringsToJson(strings)
    ensures StringArrayField(fields, key) == Some(strings)
  {
    var r := StringItems(StringsToJson(strings).items);
    assert r.Some?;
    assert r.value == strings;
  }

  // ---------------------------------------------------------------------------
  // The enumeration

  function CategoryName(c: Category): string {
    match c
    case Frontend => "frontend"
    case Backend => "backend"
    case Tools => "tools"
    case Other => "other"
  }

  /** `z.enum(["frontend", "backend", "tools", "other"])`. */
  function ParseCategory(s: string): (r: Option<Category>)
    ensures r.Some? ==> CategoryName(r.value) == s
  {
    if s == "frontend" then Some(Frontend)
    else if s == "backend" then Some(Backend)
    else if s == "tools" then Some(Tools)
    else if s == "other" then Some(Other)
    else None
  }

  /** Every category name parses back to its category, and nothing else parses. */
  lemma CategoryRoundTrip(c: Category, s: string)
    ensures ParseCategory(CategoryName(c)) == Some(c)
    ensures ParseCategory(s).Some? <==> s in {"frontend", "backend", "tools", "other"}
  {
  }

  // ---------------------------------------------------------------------------
  // insertUserSchema

  const InsertUserKeys: set<string> := {"username", "password"}

  /** `insertUserSchema`: what passes is the value cut down to its two keys. */
  function ParseInsertUser(j: Json): (r: Option<InsertUser>)
    ensures r.Some? ==> j.JObject? && InsertUserToJson(r.value) == JObject(Restrict(j.fields, InsertUserKeys))
  {
    if !j.JObject? then None
    else
      var username :- StringField(j.fields, "username");
      var password :- StringField(j.fields, "password");
      var u := InsertUser(username, password);
      assert InsertUserToJson(u).fields == Restrict(j.fields, InsertUserKeys);
      Some(u)
  }

  function InsertUserToJson(u: InsertUser): Json {
    JObject(map["username" := JString(u.username), "password" := JString(u.password)])
  }

  /** Every insert record passes the schema unchanged. */
  lemma InsertUserRoundTrip(u: InsertUser)
    ensures ParseInsertUser(InsertUserToJson(u)) == Some(u)
  {
  }

  /** A value passes exactly when its username and password are strings, and
      the result is the value cut down to those two keys. */
  lemma InsertUserAccepts(j: Json)
    ensures ParseInsertUser(j).Some? <==>
      j.JObject? && "username" in j.fields && j.fields["username"].JString? &&
      "password" in j.fields && j.fields["password"].JString?
    ensures ParseInsertUser(j).Some? ==>
      InsertUserToJson(ParseInsertUser(j).value) == JObject(Restrict(j.fields, InsertUserKeys))
  {
    if ParseInsertUser(j).Some? {
      var u := ParseInsertUser(j).value;
      assert InsertUserToJson(u).fields == Restrict(j.fields, InsertUserKeys);
    }
  }

  // ---------------------------------------------------------------------------
  // experienceSchema

  const ExperienceRequiredKeys: set<string> :=
    {"id", "company", "role", "period", "rating", "highlights", "index"}

  const ExperienceKeys: set<string> := ExperienceRequiredKeys + {"imageUrl"}

  predicate ExperienceValid(e: Experience) {
    RatingInRange(e.rating)
  }

  function ParseExperience(j: Json): (r: Option<Experience>)
    ensures r.Some? ==> ExperienceValid(r.value)
  {
    if !j.JObject? then None
    else
      var f := j.fields;
      var id :- NumberField(f, "id");
      var company :- StringField(f, "company");
      var role :- StringField(f, "role");
      var period :- StringField(f, "period");
      var rating :- NumberField(f, "rating");
      var highlights :- StringArrayField(f, "highlights");
      var imageUrl :- OptionalStringField(f, "imageUrl");
      var index :- NumberField(f, "index");
      if !RatingInRange(rating) then None
      else Some(Experience(id, company, role, period, rating, highlights, imageUrl, index))
  }

  function ExperienceToJson(e: Experience): Json {
    var required := map[
      "id" := JNumber(e.id),
      "company" := JString(e.company),
      "role" := JString(e.role),
      "period" := JString(e.period),
      "rating" := JNumber(e.rating),
      "highlights" := StringsToJson(e.highlights),
      "index" := JNumber(e.index)];
    match e.imageUrl
    case None => JObject(required)
    case Some(url) => JObject(required["imageUrl" := JString(url)])
  }

  /** A record whose rating lies in 0..100 passes the schema unchanged. */
  lemma ExperienceRoundTrip(e: Experience)
    requires ExperienceValid(e)
    ensures ParseExperience(ExperienceToJson(e)) == Some(e)
  {
    ExperienceFieldsRead(e);
  }

  /** Each field of an encoded record reads back as the record's own value. */
  lemma ExperienceFieldsRead(e: Experience)
    ensures var f := ExperienceToJson(e).fields;
      && NumberField(f, "id") == Some(e.id)
      && StringField(f, "company") == Some(e.company)
      && StringField(f, "role") == Some(e.role)
      && StringField(f, "period") == Some(e.period)
      && NumberField(f, "rating") == Some(e.rating)
      && StringArrayField(f, "highlights") == Some(e.highlights)
      && OptionalStringField(f, "imageUrl") == Some(e.imageUrl)
      && NumberField(f, "index") == Some(e.index)
  {
    StringArrayRoundTrip(e.highlights, ExperienceToJson(e).fields, "highlights");
  }

  /** Whatever passes the schema is the encoding of the parsed record once the
      keys outside the schema are dropped. */
  lemma ExperienceParsedIsRestriction(j: Json)
    requires ParseExperience(j).Some?
    ensures ExperienceToJson(ParseExperience(j).value) == JObject(Restrict(j.fields, ExperienceKeys))
  {
    var e := ParseExperience(j).value;
    var f := j.fields;
    assert f["highlights"] == StringsToJson(e.highlights);
    assert ExperienceToJson(e).fields == Restrict(f, ExperienceKeys);
  }

  /** Any JSON value passes exactly when it is an object whose required keys
      hold values of their types, whose `imageUrl` is absent or a string, and
      whose rating lies in 0..100. */
  lemma ExperienceAccepts(j: Json)
    ensures ParseExperience(j).Some? <==>
      j.JObject? && NumberField(j.fields, "id").Some? && StringField(j.fields, "company").Some? &&
      StringField(j.fields, "role").Some? && StringField(j.fields, "period").Some? &&
      NumberField(j.fields, "rating").Some? && RatingInRange(j.fields["rating"].n) &&
      StringArrayField(j.fields, "highlights").Some? &&
      OptionalStringField(j.fields, "imageUrl").Some? && NumberField(j.fields, "index").Some?
  {
  }

  /** The rating bounds are inclusive: a record passes exactly when 0 <= rating <= 100. */
  lemma ExperienceRatingBounds(e: Experience)
    ensures ParseExperience(ExperienceToJson(e)).Some? <==> 0.0 <= e.rating <= 100.0
  {
    ExperienceFieldsRead(e);
  }

  /** `imageUrl` is optional: dropping it from a valid object keeps it valid. */
  lemma ExperienceImageUrlOptional(j: Json)
    requires ParseExperience(j).Some?
    ensures ParseExperience(JObject(j.fields - {"imageUrl"})) ==
            Some(ParseExperience(j).value.(imageUrl := None))
  {
    var f := j.fields;
    var g := f - {"imageUrl"};
    assert forall k :: k in ExperienceRequiredKeys ==> k in g && g[k] == f[k];
  }

  /** Every other key is required: dropping it makes any object invalid. */
  lemma ExperienceOthersRequired(j: Json, key: string)
    requires j.JObject? && key in ExperienceRequiredKeys
    ensures ParseExperience(JObject(j.fields - {key})).None?
  {
  }

  // ---------------------------------------------------------------------------
  // skillSchema

  const SkillKeys: set<string> := {"id", "name", "rating", "category"}

  predicate SkillValid(s: Skill) {
    RatingInRange(s.rating)
  }

  function ParseSkill(j: Json): (r: Option<Skill>)
    ensures r.Some? ==> SkillValid(r.value)
  {
    if !j.JObject? then None
    else
      var f := j.fields;
      var id :- NumberField(f, "id");
      var name :- StringField(f, "name");
      var rating :- NumberField(f, "rating");
      var categoryName :- StringField(f, "category");
      var category :- ParseCategory(categoryName);
      if !RatingInRange(rating) then None
      else Some(Skill(id, name, rating, category))
  }

  function SkillToJson(s: Skill): Json {
    JObject(map[
      "id" := JNumber(s.id),
      "name" := JString(s.name),
      "rating" := JNumber(s.rating),
      "category" := JString(CategoryName(s.category))])
  }

  /** A skill whose rating lies in 0..100 passes the schema unchanged. */
  lemma SkillRoundTrip(s: Skill)
    requires SkillValid(s)
    ensures ParseSkill(SkillToJson(s)) == Some(s)
  {
    CategoryRoundTrip(s.category, "");
  }

  /** Any JSON value passes exactly when it is an object whose four fields are
      present with their types, whose rating lies in 0..100 and whose category
      is one of the four names; the result is the object cut down to the
      schema's keys. */
  lemma SkillAccepts(j: Json)
    ensures ParseSkill(j).Some? <==>
      j.JObject? && NumberField(j.fields, "id").Some? && StringField(j.fields, "name").Some? &&
      NumberField(j.fields, "rating").Some? && RatingInRange(j.fields["rating"].n) &&
      StringField(j.fields, "category").Some? &&
      j.fields["category"].s in {"frontend", "backend", "tools", "other"}
    ensures ParseSkill(j).Some? ==> SkillToJson(ParseSkill(j).value) == JObject(Restrict(j.fields, SkillKeys))
  {
    if j.JObject? && StringField(j.fields, "category").Some? {
      CategoryRoundTrip(Frontend, j.fields["category"].s);
    }
    if ParseSkill(j).Some? {
      assert SkillToJson(ParseSkill(j).value).fields == Restrict(j.fields, SkillKeys);
    }
  }

  // ---------------------------------------------------------------------------
  // projectCardSchema, newsItemSchema, projectSchema: all fields required

  const ProjectCardKeys: set<string> := {"id", "title", "metric", "color", "icon"}

  /** `projectCardSchema`: what passes is the value cut down to its keys. */
  function ParseProjectCard(j: Json): (r: Option<ProjectCard>)
    ensures r.Some? ==> j.JObject? && ProjectCardToJson(r.value) == JObject(Restrict(j.fields, ProjectCardKeys))
  {
    if !j.JObject? then None
    else
      var f := j.fields;
      var id :- NumberField(f, "id");
      var title :- StringField(f, "title");
      var metric :- StringField(f, "metric");
      var color :- StringField(f, "color");
      var icon :- StringField(f, "icon");
      var c := ProjectCard(id, title, metric, color, icon);
      assert ProjectCardToJson(c).fields == Restrict(f, ProjectCardKeys);
      Some(c)
  }

  function ProjectCardToJson(c: ProjectCard): Json {
    JObject(map[
      "id" := JNumber(c.id),
      "title" := JString(c.title),
      "metric" := JString(c.metric),
      "color" := JString(c.color),
      "icon" := JString(c.icon)])
  }

  /** Every project card passes the schema unchanged. */
  lemma ProjectCardRoundTrip(c: ProjectCard)
    ensures ParseProjectCard(ProjectCardToJson(c)) == Some(c)
  {
  }

  /** A value passes exactly when every listed field is present with its type;
      the result is the value cut down to the listed keys. */
  lemma ProjectCardAccepts(j: Json)
    ensures ParseProjectCard(j).Some? <==>
      j.JObject? && NumberField(j.fields, "id").Some? && StringField(j.fields, "title").Some? &&
      StringField(j.fields, "metric").Some? && StringField(j.fields, "color").Some? &&
      StringField(j.fields, "icon").Some?
    ensures ParseProjectCard(j).Some? ==>
      ProjectCardToJson(ParseProjectCard(j).value) == JObject(Restrict(j.fields, ProjectCardKeys))
  {
    if ParseProjectCard(j).Some? {
      assert ProjectCardToJson(ParseProjectCard(j).value).fields == Restrict(j.fields, ProjectCardKeys);
    }
  }

  const NewsItemKeys: set<string> := {"id", "title", "description", "detail", "color"}

  /** `newsItemSchema`: what passes is the value cut down to its keys. */
  function ParseNewsItem(j: Json): (r: Option<NewsItem>)
    ensures r.Some? ==> j.JObject? && NewsItemToJson(r.value) == JObject(Restrict(j.fields, NewsItemKeys))
  {
    if !j.JObject? then None
    else
      var f := j.fields;
      var id :- NumberField(f, "id");
      var title :- StringField(f, "title");
      var description :- StringField(f, "description");
      var detail :- StringField(f, "detail");
      var color :- StringField(f, "color");
      var n := NewsItem(id, title, description, detail, color);
      assert NewsItemToJson(n).fields == Restrict(f, NewsItemKeys);
      Some(n)
  }

  function NewsItemToJson(n: NewsItem): Json {
    JObject(map[
      "id" := JNumber(n.id),
      "title" := JString(n.title),
      "description" := JString(n.description),
      "detail" := JString(n.detail),
      "color" := JString(n.color)])
  }

  /** Every news item passes the schema unchanged. */
  lemma NewsItemRoundTrip(n: NewsItem)
    ensures ParseNewsItem(NewsItemToJson(n)) == Some(n)
  {
  }

  /** A value passes exactly when every listed field is present with its type;
      the result is the value cut down to the listed keys. */
  lemma NewsItemAccepts(j: Json)
    ensures ParseNewsItem(j).Some? <==>
      j.JObject? && NumberField(j.fields, "id").Some? && StringField(j.fields, "title").Some? &&
      StringField(j.fields, "description").Some? && StringField(j.fields, "detail").Some? &&
      StringField(j.fields, "color").Some?
    ensures ParseNewsItem(j).Some? ==>
      NewsItemToJson(ParseNewsItem(j).value) == JObject(Restrict(j.fields, NewsItemKeys))
  {
    if ParseNewsItem(j).Some? {
      assert NewsItemToJson(ParseNewsItem(j).value).fields == Restrict(j.fields, NewsItemKeys);
    }
  }

  const ProjectKeys: set<string> := {"id", "name", "period", "link"}

  /** `projectSchema`: what passes is the value cut down to its keys. */
  function ParseProject(j: Json): (r: Option<Project>)
    ensures r.Some? ==> j.JObject? && ProjectToJson(r.value) == JObject(Restrict(j.fields, ProjectKeys))
  {
    if !j.JObject? then None
    else
      var f := j.fields;
      var id :- NumberField(f, "id");
      var name :- StringField(f, "name");
      var period :- StringField(f, "period");
      var link :- StringField(f, "link");
      var p := Project(id, name, period, link);
      assert ProjectToJson(p).fields == Restrict(f, ProjectKeys);
      Some(p)
  }

  function ProjectToJson(p: Project): Json {
    JObject(map[
      "id" := JNumber(p.id),
      "name" := JString(p.name),
      "period" := JString(p.period),
      "link" := JString(p.link)])
  }

  /** Every project passes the schema unchanged. */
  lemma ProjectRoundTrip(p: Project)
    ensures ParseProject(ProjectToJson(p)) == Some(p)
  {
  }

  /** A value passes exactly when every listed field is present with its type;
      the result is the value cut down to the listed keys. */
  lemma ProjectAccepts(j: Json)
    ensures ParseProject(j).Some? <==>
      j.JObject? && NumberField(j.fields, "id").Some? && StringField(j.fields, "name").Some? &&
      StringField(j.fields, "period").Some? && StringField(j.fields, "link").Some?
    ensures ParseProject(j).Some? ==>
      ProjectToJson(ParseProject(j).value) == JObject(Restrict(j.fields, ProjectKeys))
  {
    if ParseProject(j).Some? {
      assert ProjectToJson(ParseProject(j).value).fields == Restrict(j.fields, ProjectKeys);
    }
  }
}
