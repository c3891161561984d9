/**
 * app/api/projects/route.ts: the project slug, the built-in template texts, and the decisions of
 * `POST /api/projects`. The database is a value the handler reads and returns updated; the
 * session's user id and the new project's id are inputs.
 */
module ProjectsRoute {
  import opened Wrappers
  import opened Text

  // ---------------------------------------------------------------------------------------------
  // Slugs

  /** `s.replace(/(^-|-$)/g, "")`: one leading and one trailing dash removed. */
  function StripEdges(s: string): string
  {
    var a := if s != [] && s[0] == '-' then s[1..] else s;
    if a != [] && a[|a| - 1] == '-' then a[..|a| - 1] else a
  }

  /** A slug uses only `[a-z0-9-]`, never `--`, and neither starts nor ends with a dash. */
  predicate SlugForm(s: string)
  {
    DashChars(s) && NoDoubleDash(s) && (s != [] ==> s[0] != '-' && s[|s| - 1] != '-')
  }

  /** `name.toLowerCase().replace(/[^a-z0-9]+/g, "-").replace(/(^-|-$)/g, "")`: every slug is in slug
      form, and a name already in slug form is its own slug. */
  function Slug(name: string): (slug: string)
    ensures SlugForm(slug)
    ensures SlugForm(name) ==> slug == name
  {
    DashifyShape(ToLower(name));
    StripEdgesForm(Dashify(ToLower(name)));
    SlugFormFixed(name);
    StripEdges(Dashify(ToLower(name)))
  }

  lemma SlugFormFixed(s: string)
    ensures SlugForm(s) ==> StripEdges(Dashify(ToLower(s))) == s
  {
    if SlugForm(s) {
      ToLowerFixpoint(s);
      DashifyFixpoint(s);
    }
  }

  lemma SliceForm(s: string, i: nat, j: nat)
    requires DashChars(s) && NoDoubleDash(s) && i <= j <= |s|
    ensures DashChars(s[i..j]) && NoDoubleDash(s[i..j])
  {
    forall k | 0 <= k < |s[i..j]| - 1 ensures !(s[i..j][k] == '-' && s[i..j][k + 1] == '-') {
      assert s[i..j][k] == s[i + k] && s[i..j][k + 1] == s[i + k + 1];
    }
  }

  lemma StripEdgesForm(s: string)
    requires DashChars(s) && NoDoubleDash(s)
    ensures SlugForm(StripEdges(s))
  {
    var a := if s != [] && s[0] == '-' then s[1..] else s;
    if s != [] && s[0] == '-' {
      SliceForm(s, 1, |s|);
      if |s| > 1 {
        assert s[1] != '-';
      }
    }
    assert a != [] ==> a[0] != '-';
    if a != [] && a[|a| - 1] == '-' {
      SliceForm(a, 0, |a| - 1);
      if |a| > 1 {
        assert a[|a| - 2] != '-';
      }
    }
  }

  /** The slug keeps exactly the letters and digits of the lower-cased name, in order: only the
      other characters are replaced or dropped. */
  lemma SlugKeepsAlnums(name: string)
    ensures Alnums(Slug(name)) == Alnums(ToLower(name))
  {
    var d := Dashify(ToLower(name));
    DashifyKeepsAlnums(ToLower(name));
    var a := if d != [] && d[0] == '-' then d[1..] else d;
    if d != [] && d[0] == '-' {
      assert d == "-" + a;
      AlnumsAppend("-", a);
    }
    if a != [] && a[|a| - 1] == '-' {
      assert a == a[..|a| - 1] + "-";
      AlnumsAppend(a[..|a| - 1], "-");
    }
  }

  /** Slug derivation is idempotent. */
  lemma SlugIdempotent(name: string)
    ensures Slug(Slug(name)) == Slug(name)
  {
  }

  // ---------------------------------------------------------------------------------------------
  // getTemplateContent

  const DocsTemplate := "# Welcome to Your Documentation\n"
  const ChangelogTemplate := "# Changelog\n"
  const FaqTemplate := "# Frequently Asked Questions\n"

  /** What `templates[templateId]` yields on the object literal: one of its own three texts, a
      property every object inherits from `Object.prototype`, or nothing. */
  datatype TemplateLookup = Own(content: string) | Inherited(name: string) | Absent

  /** `templates[templateId as keyof typeof templates]`, as written. */
  function LookupAsWritten(id: string): (r: TemplateLookup)
    ensures r.Inherited? <==> InheritedName(id)
  {
    if id == "docs" then Own(DocsTemplate)
    else if id == "changelog" then Own(ChangelogTemplate)
    else if id == "faq" then Own(FaqTemplate)
    else if InheritedName(id) then Inherited(id)
    else Absent
  }

  /** As written, `getTemplateContent("toString")` is not null: it is the inherited function,
      which is truthy and so reaches `prisma.document.create` as the content. */
  lemma InheritedTemplate()
    ensures LookupAsWritten("toString") == Inherited("toString")
  {
  }

  /** `getTemplateContent(templateId)` as intended: text for the three template ids, null for
      any other id. */
  function TemplateContent(id: string): (r: Option<string>)
    ensures r.Some? <==> id in {"docs", "changelog", "faq"}
    ensures r.Some? ==> r.value != []
  {
    if id == "docs" then Some(DocsTemplate)
    else if id == "changelog" then Some(ChangelogTemplate)
    else if id == "faq" then Some(FaqTemplate)
    else None
  }

  /** The corrected lookup agrees with the object literal on its own keys and on every id that is
      not an inherited property name. */
  lemma TemplateContentAgrees(id: string)
    ensures LookupAsWritten(id).Own? ==> TemplateContent(id) == Some(LookupAsWritten(id).content)
    ensures !InheritedName(id) ==> (TemplateContent(id).None? <==> LookupAsWritten(id).Absent?)
  {
  }

  // ---------------------------------------------------------------------------------------------
  // POST /api/projects

  /** The request body; `name` must be a string of at least one character. */
  datatype ProjectBody = ProjectBody(name: Option<string>, description: Option<string>,
                                     isPublic: Option<bool>, template: Option<string>)

  datatype Project = Project(id: string, name: string, description: Option<string>, slug: string,
                             isPublic: bool, userId: string)

  datatype DocumentRecord = DocumentRecord(title: string, content: string, slug: string,
                                           projectId: string, userId: string)

  datatype Db = Db(projects: seq<Project>, documents: seq<DocumentRecord>)

  datatype PostResponse = Unauthorized | ValidationFailed | SlugExists | Created(project: Project)

  /** `prisma.project.findUnique({ where: { slug } })` finds a row. */
  predicate SlugTaken(projects: seq<Project>, slug: string)
  {
    exists i :: 0 <= i < |projects| && projects[i].slug == slug
  }

  /** The database's unique index on `slug`. */
  predicate UniqueSlugs(projects: seq<Project>)
  {
    forall i, j :: 0 <= i < j < |projects| ==> projects[i].slug != projects[j].slug
  }

  /** The "Getting Started" document created from a template, if any. */
  function TemplateDocument(template: Option<string>, projectId: string, userId: string): Option<DocumentRecord>
  {
    if Present(template) && TemplateContent(template.value).Some? then
      Some(DocumentRecord("Getting Started", TemplateContent(template.value).value, "getting-started", projectId, userId))
    else None
  }

  /** `POST /api/projects`: the response and the database afterwards. A refusal writes nothing; a
      created project is appended with at most one document after it, and the slugs stay unique. */
  function CreateProject(db: Db, user: Option<string>, body: ProjectBody, newId: string): (res: (PostResponse, Db))
    ensures !res.0.Created? ==> res.1 == db
    ensures res.0.Created? ==>
      && res.1.projects == db.projects + [res.0.project]
      && SlugForm(res.0.project.slug)
      && !SlugTaken(db.projects, res.0.project.slug)
      && |db.documents| <= |res.1.documents| <= |db.documents| + 1
      && res.1.documents[..|db.documents|] == db.documents
    ensures UniqueSlugs(db.projects) ==> UniqueSlugs(res.1.projects)
    ensures res.0 == ValidationFailed <==> Present(user) && !Present(body.name)
    ensures Present(user) && Present(body.name) && !SlugTaken(db.projects, Slug(body.name.value)) ==> res.0.Created?
  {
    if !Present(user) then (Unauthorized, db)
    else if body.name.None? || body.name.value == [] then (ValidationFailed, db)
    else
      var slug := Slug(body.name.value);
      if SlugTaken(db.projects, slug) then (SlugExists, db)
      else
        var project := Project(newId, body.name.value, body.description, slug, body.isPublic.GetOr(false), user.value);
        var doc := TemplateDocument(body.template, newId, user.value);
        (Created(project), Db(db.projects + [project],
                              db.documents + (if doc.Some? then [doc.value] else [])))
  }

  /** Every answer but 201 leaves the database as it was: 401 exactly when there is no session
      user, and 400 for a missing name or a slug already in use. */
  lemma CreateProjectRejects(db: Db, user: Option<string>, body: ProjectBody, newId: string)
    ensures var (r, after) := CreateProject(db, user, body, newId);
      && (r == Unauthorized <==> !Present(user))
      && (!r.Created? ==> after == db)
      && (Present(user) && Present(body.name) && SlugTaken(db.projects, Slug(body.name.value)) ==> r == SlugExists)
      && (r == SlugExists ==> Present(body.name) && SlugTaken(db.projects, Slug(body.name.value)))
  {
  }

  /** A created project is the one new row, owned by the session user and carrying the slug of its
      name; the database's slugs stay unique. */
  lemma CreatedProject(db: Db, user: Option<string>, body: ProjectBody, newId: string)
    requires UniqueSlugs(db.projects)
    ensures var (r, after) := CreateProject(db, user, body, newId);
      r.Created? ==>
        && after.projects == db.projects + [r.project]
        && r.project.slug == Slug(r.project.name) && SlugForm(r.project.slug)
        && r.project.userId == user.value && r.project.id == newId
        && r.project.isPublic == body.isPublic.GetOr(false)
        && UniqueSlugs(after.projects)
  {
  }

  /** A "getting-started" document is created only with a template id whose content exists, and
      then it holds that content. */
  lemma CreatedTemplateDocument(db: Db, user: Option<string>, body: ProjectBody, newId: string)
    ensures var (r, after) := CreateProject(db, user, body, newId);
      r.Created? ==>
        && (Present(body.template) && TemplateContent(body.template.value).Some? ==>
              after.documents == db.documents + [DocumentRecord("Getting Started", TemplateContent(body.template.value).value,
                                                                "getting-started", newId, user.value)])
        && (!(Present(body.template) && TemplateContent(body.template.value).Some?) ==> after.documents == db.documents)
  {
  }
}
