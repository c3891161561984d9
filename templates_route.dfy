/**
 * app/api/templates/route.ts: the list of document templates, and `POST /api/templates`, which
 * creates a document from one of them in a project the user can edit. The project query is an
 * input (the rows it searches); the documents table is a value the handler returns updated.
 */
module TemplatesRoute {
  import opened Wrappers
  import opened Text
  import ProjectsRoute

  datatype Template = Template(id: string, name: string, description: string, icon: string,
                               content: string, category: string)

  const DocsContent := "# Project Documentation\n"
  const ChangelogContent := "# Changelog\n"
  const FaqContent := "# Frequently Asked Questions\n"

  /** What `GET /api/templates` returns. */
  const Templates: seq<Template> := [
    Template("docs", "Documentation",
             "Complete documentation template with sections for API guides, tutorials, and examples",
             "", DocsContent, "Documentation"),
    Template("changelog", "Changelog",
             "Track your project changes with version history and release notes",
             "\U{1F4DD}", ChangelogContent, "Version Control"),
    Template("faq", "FAQ",
             "Answer user questions with a comprehensive FAQ section",
             "\U{2753}", FaqContent, "Support")
  ]

  /** The three templates, docs, changelog and faq, in that order, each with content. */
  lemma TemplateList()
    ensures |Templates| == 3
    ensures Templates[0].id == "docs" && Templates[1].id == "changelog" && Templates[2].id == "faq"
    ensures forall i :: 0 <= i < |Templates| ==> Templates[i].content != []
  {
  }

  /** The `(id, content)` list `POST` searches: the same ids and texts as the list `GET` returns. */
  const PostTemplates: seq<(string, string)> := [
    ("docs", DocsContent), ("changelog", ChangelogContent), ("faq", FaqContent)
  ]

  /** `templates.find(t => t.id === templateId)` */
  function FindTemplate(list: seq<(string, string)>, id: string): (r: Option<string>)
    ensures r.Some? <==> exists i :: 0 <= i < |list| && list[i].0 == id
    ensures r.Some? ==> exists i :: 0 <= i < |list| && list[i].0 == id && list[i].1 == r.value
  {
    if list == [] then None
    else if list[0].0 == id then Some(list[0].1)
    else
      var r := FindTemplate(list[1..], id);
      assert forall i :: 1 <= i < |list| ==> list[i] == list[1..][i - 1];
      r
  }

  /** A template `POST` finds has the content `GET` shows for that id; the ids it does not find
      are the ids `GET` does not list. */
  lemma PostTemplatesMatchGet(id: string)
    ensures FindTemplate(PostTemplates, id).Some? <==> exists i :: 0 <= i < |Templates| && Templates[i].id == id
    ensures forall i :: 0 <= i < |Templates| && Templates[i].id == id ==>
      FindTemplate(PostTemplates, id) == Some(Templates[i].content)
  {
    assert forall i :: 0 <= i < 3 ==> PostTemplates[i] == (Templates[i].id, Templates[i].content);
  }

  /** A project row the lookup searches: its slug, owner and members' user ids. */
  datatype ProjectRow = ProjectRow(id: string, slug: string, ownerId: string, memberIds: set<string>)

  predicate CanEdit(p: ProjectRow, slug: string, user: string)
  {
    p.slug == slug && (p.ownerId == user || user in p.memberIds)
  }

  /** `prisma.project.findFirst` with the slug and the owner-or-member condition. */
  function FindProject(projects: seq<ProjectRow>, slug: string, user: string): (r: Option<ProjectRow>)
    ensures r.Some? ==> r.value in projects && CanEdit(r.value, slug, user)
    ensures r.None? ==> forall p :: p in projects ==> !CanEdit(p, slug, user)
  {
    if projects == [] then None
    else if CanEdit(projects[0], slug, user) then Some(projects[0])
    else
      assert forall p :: p in projects ==> p == projects[0] || p in projects[1..];
      FindProject(projects[1..], slug, user)
  }

  datatype TemplateResponse = Unauthorized | MissingFields | ProjectNotFound | TemplateNotFound
                            | Created(document: ProjectsRoute.DocumentRecord)

  /** `POST /api/templates`: the response and the documents afterwards. */
  function CreateFromTemplate(documents: seq<ProjectsRoute.DocumentRecord>, projects: seq<ProjectRow>,
                              user: Option<string>, templateId: Option<string>, projectSlug: Option<string>,
                              title: Option<string>): (res: (TemplateResponse, seq<ProjectsRoute.DocumentRecord>))
    ensures !res.0.Created? ==> res.1 == documents
    ensures res.0.Created? ==>
      && res.1 == documents + [res.0.document]
      && ProjectsRoute.SlugForm(res.0.document.slug)
      && res.0.document.content != []
    ensures res.0 == MissingFields <==> Present(user) && (!Present(templateId) || !Present(projectSlug) || !Present(title))
    ensures (&& Present(user) && Present(templateId) && Present(projectSlug) && Present(title)
             && FindProject(projects, projectSlug.value, user.value).Some?
             && FindTemplate(PostTemplates, templateId.value).Some?)
      ==> res.0.Created?
  {
    if !Present(user) then (Unauthorized, documents)
    else if !Present(templateId) || !Present(projectSlug) || !Present(title) then (MissingFields, documents)
    else
      match FindProject(projects, projectSlug.value, user.value)
      case None => (ProjectNotFound, documents)
      case Some(project) =>
        match FindTemplate(PostTemplates, templateId.value)
        case None => (TemplateNotFound, documents)
        case Some(content) =>
          var doc := ProjectsRoute.DocumentRecord(title.value, content, ProjectsRoute.Slug(title.value), project.id, user.value);
          (Created(doc), documents + [doc])
  }

  /** Each refusal leaves the documents unchanged: 400 for a missing field whatever the projects
      are, 404 when no project with that slug is owned by or shared with the user, and 404 for a
      template id that is not listed. */
  lemma CreateFromTemplateRejects(documents: seq<ProjectsRoute.DocumentRecord>, projects: seq<ProjectRow>,
                                  user: Option<string>, templateId: Option<string>, projectSlug: Option<string>,
                                  title: Option<string>)
    ensures var (r, after) := CreateFromTemplate(documents, projects, user, templateId, projectSlug, title);
      && (!r.Created? ==> after == documents)
      && (r == Unauthorized <==> !Present(user))
      && (Present(user) && (!Present(templateId) || !Present(projectSlug) || !Present(title)) ==> r == MissingFields)
      && (r == ProjectNotFound ==> forall p :: p in projects ==> !CanEdit(p, projectSlug.value, user.value))
      && (r == TemplateNotFound ==> forall i :: 0 <= i < |Templates| ==> Templates[i].id != templateId.value)
  {
    var (r, after) := CreateFromTemplate(documents, projects, user, templateId, projectSlug, title);
    if r == TemplateNotFound {
      PostTemplatesMatchGet(templateId.value);
    }
  }

  /** The created document is the one new row: in a project the user can edit, with the title's
      slug and the chosen template's content. */
  lemma CreatedFromTemplate(documents: seq<ProjectsRoute.DocumentRecord>, projects: seq<ProjectRow>,
                            user: Option<string>, templateId: Option<string>, projectSlug: Option<string>,
                            title: Option<string>)
    ensures var (r, after) := CreateFromTemplate(documents, projects, user, templateId, projectSlug, title);
      r.Created? ==>
        && after == documents + [r.document]
        && r.document.title == title.value && r.document.userId == user.value
        && r.document.slug == ProjectsRoute.Slug(title.value) && ProjectsRoute.SlugForm(r.document.slug)
        && (exists p :: p in projects && CanEdit(p, projectSlug.value, user.value) && p.id == r.document.projectId)
        && (exists i :: 0 <= i < |Templates| && Templates[i].id == templateId.value && Templates[i].content == r.document.content)
  {
    var (r, after) := CreateFromTemplate(documents, projects, user, templateId, projectSlug, title);
    if r.Created? {
      PostTemplatesMatchGet(templateId.value);
      var i :| 0 <= i < |PostTemplates| && PostTemplates[i].0 == templateId.value;
      assert Templates[i].id == templateId.value;
    }
  }
}
