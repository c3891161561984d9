/**
 * app/api/social/automate/route.ts: the text of a social-media post generated from a document,
 * and `POST /api/social/automate`, which finds a published document by slug and creates one post
 * per platform, publishing them at once unless they are scheduled. The documents the queries
 * search are an input; the social-post table is an object the handler updates.
 */
module SocialAutomate {
  import opened Wrappers
  import opened Text

  // ---------------------------------------------------------------------------------------------
  // generateSocialContent

  /** The index of the first `>` in `s`. */
  function CloseAt(s: string): (r: Option<nat>)
    ensures r.Some? ==> r.value < |s| && s[r.value] == '>' && '>' !in s[..r.value]
    ensures r.None? ==> '>' !in s
  {
    if s == [] then None
    else if s[0] == '>' then Some(0)
    else
      var r := CloseAt(s[1..]);
      if r.None? then None
      else
        assert s[..r.value + 1] == [s[0]] + s[1..][..r.value];
        Some(r.value + 1)
  }

  /** `s.replace(/<[^>]*>/g, '')`: every `<` with a `>` after it is removed together with the text
      up to and including that `>`; a `<` with no `>` after it stays. */
  function StripTags(s: string): (r: string)
    ensures |r| <= |s|
    ensures forall c :: c in r ==> c in s
    decreases |s|
  {
    if s == [] then []
    else if s[0] == '<' && CloseAt(s[1..]).Some? then StripTags(s[1..][CloseAt(s[1..]).value + 1..])
    else
      var rest := StripTags(s[1..]);
      assert forall c :: c in rest ==> c in s;
      [s[0]] + rest
  }

  /** No `<` is followed, anywhere later, by a `>`: no tag is left. */
  predicate NoTags(s: string)
  {
    forall i, j :: 0 <= i < j < |s| && s[i] == '<' ==> s[j] != '>'
  }

  /** Stripping leaves no tag behind. */
  lemma {:induction false} StripTagsNoTags(s: string)
    ensures NoTags(StripTags(s))
    decreases |s|
  {
    if s != [] {
      if s[0] == '<' && CloseAt(s[1..]).Some? {
        StripTagsNoTags(s[1..][CloseAt(s[1..]).value + 1..]);
      } else {
        StripTagsNoTags(s[1..]);
        var rest := StripTags(s[1..]);
        var r := StripTags(s);
        assert r == [s[0]] + rest;
        if s[0] == '<' {
          assert '>' !in s[1..];
          assert '>' !in rest;
        }
        forall i, j | 0 <= i < j < |r| && r[i] == '<' ensures r[j] != '>' {
          if i > 0 {
            assert r[i] == rest[i - 1] && r[j] == rest[j - 1];
          } else {
            assert r[j] == rest[j - 1];
            assert r[j] in rest;
          }
        }
      }
    }
  }

  /** A text without `<` is left as it is. */
  lemma {:induction false} StripTagsPlain(s: string)
    requires '<' !in s
    ensures StripTags(s) == s
    decreases |s|
  {
    if s != [] {
      StripTagsPlain(s[1..]);
    }
  }

  /** Text before the first `<` is kept as it is, and the stripping goes on after it. */
  lemma {:induction false} StripTagsKeepsText(a: string, b: string)
    requires '<' !in a
    ensures StripTags(a + b) == a + StripTags(b)
    decreases |a|
  {
    if a != [] {
      assert (a + b)[0] == a[0] && (a + b)[1..] == a[1..] + b;
      assert a[0] in a && a[1..] + b == (a + b)[1..];
      StripTagsKeepsText(a[1..], b);
      assert StripTags(a + b) == [a[0]] + StripTags(a[1..] + b);
      assert a == [a[0]] + a[1..];
    } else {
      assert a + b == b;
    }
  }

  /** A whole tag `<t>` is removed, up to its first `>`, and the stripping goes on after it. */
  lemma StripTagsDropsTag(t: string, b: string)
    requires '>' !in t
    ensures StripTags("<" + t + ">" + b) == StripTags(b)
  {
    var s := "<" + t + ">" + b;
    var rest := t + ">" + b;
    assert s[1..] == rest;
    assert rest[|t|] == '>';
    var k := CloseAt(rest);
    assert k.Some? by {
      assert '>' in rest;
    }
    assert k.value == |t|;
    assert rest[|t| + 1..] == b;
  }

  /** The frame of each platform's post: the text before the title, between the title and the
      excerpt, and after the excerpt. */
  function Frame(platform: string): (string, string, string)
  {
    if platform == "linkedin" then ("Just published: ", "\n\n", "...\n\n#documentation #tech #productivity")
    else if platform == "facebook" then ("Check out our latest: ", "\n\n", "...\n\nWhat do you think?")
    else if platform == "instagram" then ("New content alert!\n\n", "\n\n", "...\n\nSwipe up to read more!")
    else ("New: ", "\n\n", "...\n\nRead more: [LINK]")
  }

  predicate KnownPlatform(platform: string)
  {
    platform in {"twitter", "linkedin", "facebook", "instagram"}
  }

  /** The excerpt: the first 200 characters of the content without its tags. */
  function Excerpt(content: string): string
  {
    Prefix(StripTags(content), 200)
  }

  function Fill(frame: (string, string, string), title: string, text: string): string
  {
    frame.0 + title + frame.1 + text + frame.2
  }

  /** What `templates[platform]` yields on the object literal: an own template, an inherited
      member of `Object.prototype`, or nothing. */
  datatype PlatformLookup = OwnTemplate(platform: string) | InheritedMember(name: string) | NoTemplate

  /** `templates[platform as keyof typeof templates]`, as written. */
  function PlatformLookupAsWritten(platform: string): (r: PlatformLookup)
    ensures r.InheritedMember? <==> InheritedName(platform)
  {
    if KnownPlatform(platform) then OwnTemplate(platform)
    else if InheritedName(platform) then InheritedMember(platform)
    else NoTemplate
  }

  /** As written, the platform "toString" finds the inherited function, which is truthy, so
      `generateSocialContent` returns that function instead of the twitter text. */
  lemma InheritedPlatform()
    ensures PlatformLookupAsWritten("toString") == InheritedMember("toString")
    ensures !KnownPlatform("toString")
  {
  }

  /** The template a platform selects: its own when it is listed, the twitter one otherwise. */
  function PlatformKey(platform: Option<string>): (key: string)
    ensures KnownPlatform(key)
  {
    if Present(platform) && KnownPlatform(platform.value) then platform.value else "twitter"
  }

  lemma Parts(a: string, b: string, c: string, d: string, e: string)
    ensures OccursAt(a + b + c + d + e, d, |a| + |b| + |c|)
    ensures StartsWith(a + b + c + d + e, a + b)
  {
    var s := a + b + c + d + e;
    assert s[|a| + |b| + |c|..|a| + |b| + |c| + |d|] == d;
    assert s[..|a| + |b|] == a + b;
  }

  /** `generateSocialContent(title, content, platform)`, with an unlisted platform falling back to
      the twitter text: the selected frame's opening words, the title, and the excerpt, nothing
      dropped. */
  function GenerateSocialContent(title: string, content: string, platform: Option<string>): (post: string)
    ensures var (head, mid, tail) := Frame(PlatformKey(platform));
      && StartsWith(post, head + title)
      && OccursAt(post, Excerpt(content), |head| + |title| + |mid|)
      && |post| == |head| + |title| + |mid| + |Excerpt(content)| + |tail|
  {
    var f := Frame(PlatformKey(platform));
    Parts(f.0, title, f.1, Excerpt(content), f.2);
    Fill(f, title, Excerpt(content))
  }

  /** A post names the title right after its platform's opening words and then quotes the excerpt,
      which holds no tag and at most 200 characters; a listed platform gets its own frame and any
      other platform, or none, the twitter frame. */
  lemma GeneratedContent(title: string, content: string, platform: Option<string>)
    ensures var key := if Present(platform) && KnownPlatform(platform.value) then platform.value else "twitter";
      var (head, mid, _) := Frame(key);
      var post := GenerateSocialContent(title, content, platform);
      && StartsWith(post, head + title)
      && OccursAt(post, Excerpt(content), |head| + |title| + |mid|)
      && NoTags(Excerpt(content)) && |Excerpt(content)| <= 200
      && (!Present(platform) || !KnownPlatform(platform.value) ==> post == GenerateSocialContent(title, content, Some("twitter")))
  {
    var key := if Present(platform) && KnownPlatform(platform.value) then platform.value else "twitter";
    var f := Frame(key);
    Parts(f.0, title, f.1, Excerpt(content), f.2);
    var stripped := StripTags(content);
    StripTagsNoTags(content);
    var e := Excerpt(content);
    assert e == stripped[..|e|];
    forall i, j | 0 <= i < j < |e| && e[i] == '<' ensures e[j] != '>' {
      assert e[i] == stripped[i] && e[j] == stripped[j];
    }
  }

  // ---------------------------------------------------------------------------------------------
  // The social-post table

  datatype Status = Draft | Scheduled | Published | Failed

  datatype SocialPost = SocialPost(documentId: string, platform: string, content: string,
                                   scheduledTime: Option<string>, status: Status, userId: string)

  /** The `socialPost` table: its rows in creation order, a row's id being its index. */
  class SocialPosts {
    var rows: seq<SocialPost>

    constructor()
      ensures rows == []
    {
      rows := [];
    }

    /** `prisma.socialPost.create` */
    method Create(post: SocialPost) returns (id: nat)
      modifies this
      ensures rows == old(rows) + [post] && id == |old(rows)|
    {
      id := |rows|;
      rows := rows + [post];
    }

    /** `prisma.socialPost.update` of a row's status. */
    method SetStatus(id: nat, status: Status)
      requires id < |rows|
      modifies this
      ensures rows == old(rows)[id := old(rows)[id].(status := status)]
    {
      rows := rows[id := rows[id].(status := status)];
    }
  }

  // ---------------------------------------------------------------------------------------------
  // POST /api/social/automate

  /** A document row: its slug, whether its project is owned by, shared with or visible to the
      user, and the fields the handler reads. */
  datatype DocumentRow = DocumentRow(id: string, slug: string, visible: bool, title: string,
                                     content: string, isPublished: bool)

  /** `prisma.document.findFirst` by slug, among visible documents only or among all of them. */
  function FindBySlug(docs: seq<DocumentRow>, slug: string, visibleOnly: bool): (r: Option<DocumentRow>)
    ensures r.Some? ==> r.value in docs && r.value.slug == slug && (visibleOnly ==> r.value.visible)
    ensures r.None? ==> forall d :: d in docs && d.slug == slug ==> visibleOnly && !d.visible
  {
    if docs == [] then None
    else if docs[0].slug == slug && (!visibleOnly || docs[0].visible) then Some(docs[0])
    else
      assert forall d :: d in docs ==> d == docs[0] || d in docs[1..];
      FindBySlug(docs[1..], slug, visibleOnly)
  }

  /** The document the handler settles on: a visible one if there is one, else any document with
      that slug. */
  function LookupDocument(docs: seq<DocumentRow>, slug: string): Option<DocumentRow>
  {
    var first := FindBySlug(docs, slug, true);
    if first.Some? then first else FindBySlug(docs, slug, false)
  }

  /** The lookup finds a document whenever one has the slug, and prefers one the user can see. */
  lemma LookupFallsBack(docs: seq<DocumentRow>, slug: string)
    ensures LookupDocument(docs, slug).Some? <==> exists d :: d in docs && d.slug == slug
    ensures LookupDocument(docs, slug).Some? ==> LookupDocument(docs, slug).value.slug == slug
    ensures (exists d :: d in docs && d.slug == slug && d.visible) ==> LookupDocument(docs, slug).value.visible
  {
  }

  datatype AutomateResponse =
    | Unauthorized
    | DocumentNotFound
    | NotPublished(documentId: string)
    | Posted(posts: seq<SocialPost>, message: string)

  /** The post the handler creates for one platform. */
  function PostFor(doc: DocumentRow, platform: string, message: string, scheduledTime: Option<string>,
                   autoGenerate: bool, userId: string): SocialPost
  {
    SocialPost(doc.id, platform,
               if autoGenerate then GenerateSocialContent(doc.title, doc.content, Some(platform)) else message,
               if Present(scheduledTime) then scheduledTime else None,
               if Present(scheduledTime) then Scheduled else Draft,
               userId)
  }

  /** The posts created for `platforms`, one each and in order. */
  function PostsFor(doc: DocumentRow, platforms: seq<string>, message: string, scheduledTime: Option<string>,
                    autoGenerate: bool, userId: string): (r: seq<SocialPost>)
    ensures |r| == |platforms|
    ensures forall i :: 0 <= i < |r| ==> r[i] == PostFor(doc, platforms[i], message, scheduledTime, autoGenerate, userId)
  {
    seq(|platforms|, i requires 0 <= i < |platforms| => PostFor(doc, platforms[i], message, scheduledTime, autoGenerate, userId))
  }

  /** `triggerSocialPost`: published, or failed when the update throws. */
  function Triggered(post: SocialPost, fails: bool): SocialPost
  {
    post.(status := if fails then Failed else Published)
  }

  /** The rows after the first `n` of `posts` have been triggered; `fails` holds the positions
      whose update throws. */
  function TriggeredUpTo(posts: seq<SocialPost>, fails: set<nat>, n: nat): (r: seq<SocialPost>)
    ensures |r| == |posts|
  {
    seq(|posts|, i requires 0 <= i < |posts| => if i < n then Triggered(posts[i], i in fails) else posts[i])
  }

  /** Each post carries the platform it was made for and the document's id; its text is the
      platform's generated text under `autoGenerate` and the given message otherwise; it is
      scheduled when a time is given and a draft otherwise, and triggering it makes it published
      or failed. */
  lemma PostsShape(doc: DocumentRow, platforms: seq<string>, message: string, scheduledTime: Option<string>,
                   autoGenerate: bool, userId: string, fails: set<nat>)
    ensures var posts := PostsFor(doc, platforms, message, scheduledTime, autoGenerate, userId);
      forall i :: 0 <= i < |posts| ==>
        && posts[i].platform == platforms[i] && posts[i].documentId == doc.id && posts[i].userId == userId
        && (autoGenerate ==> posts[i].content == GenerateSocialContent(doc.title, doc.content, Some(platforms[i])))
        && (!autoGenerate ==> posts[i].content == message)
        && (posts[i].status == Scheduled <==> Present(scheduledTime))
        && (posts[i].status == Draft <==> !Present(scheduledTime))
        && TriggeredUpTo(posts, fails, |posts|)[i].status == (if i in fails then Failed else Published)
        && TriggeredUpTo(posts, fails, |posts|)[i].content == posts[i].content
  {
  }

  /** `POST /api/social/automate`: `user` is the session's user id, `docs` the documents the two
      queries search, and `fails` the positions of the posts whose status update throws. */
  method Automate(table: SocialPosts, docs: seq<DocumentRow>, user: Option<string>, documentSlug: string,
                  platforms: seq<string>, message: string, scheduledTime: Option<string>, autoGenerate: bool,
                  fails: set<nat>)
    returns (r: AutomateResponse)
    modifies table
    ensures user.None? <==> r == Unauthorized
    ensures user.Some? && LookupDocument(docs, documentSlug).None? ==> r == DocumentNotFound
    ensures user.Some? && LookupDocument(docs, documentSlug).Some? && !LookupDocument(docs, documentSlug).value.isPublished
      ==> r == NotPublished(LookupDocument(docs, documentSlug).value.id)
    ensures user.Some? && LookupDocument(docs, documentSlug).Some? && LookupDocument(docs, documentSlug).value.isPublished
      ==> r.Posted?
    ensures !r.Posted? ==> table.rows == old(table.rows)
    ensures r.Posted? ==>
      var doc := LookupDocument(docs, documentSlug).value;
      var posts := PostsFor(doc, platforms, message, scheduledTime, autoGenerate, user.value);
      && user.Some? && doc.isPublished
      && r.posts == posts
      && table.rows == old(table.rows) + (if Present(scheduledTime) then posts else TriggeredUpTo(posts, fails, |posts|))
      && r.message == (if Present(scheduledTime) then "Posts scheduled successfully" else "Posts published successfully")
  {
    if user.None? {
      return Unauthorized;
    }
    var document := FindBySlug(docs, documentSlug, true);
    if document.None? {
      var broader := FindBySlug(docs, documentSlug, false);
      if broader.Some? {
        document := broader;
      }
    }
    if document.None? {
      return DocumentNotFound;
    }
    var doc := document.value;
    if !doc.isPublished {
      return NotPublished(doc.id);
    }
    var base := |table.rows|;
    var posts := CreatePosts(table, doc, platforms, message, scheduledTime, autoGenerate, user.value);
    if !Present(scheduledTime) {
      TriggerPosts(table, base, posts, fails);
    } else {
      assert TriggeredUpTo(posts, fails, 0) == posts;
    }
    r := Posted(posts, if Present(scheduledTime) then "Posts scheduled successfully" else "Posts published successfully");
  }

  /** The `platforms.map` that creates one post per platform. */
  method CreatePosts(table: SocialPosts, doc: DocumentRow, platforms: seq<string>, message: string,
                     scheduledTime: Option<string>, autoGenerate: bool, userId: string)
    returns (posts: seq<SocialPost>)
    modifies table
    ensures posts == PostsFor(doc, platforms, message, scheduledTime, autoGenerate, userId)
    ensures table.rows == old(table.rows) + posts
  {
    ghost var expected := PostsFor(doc, platforms, message, scheduledTime, autoGenerate, userId);
    posts := [];
    for i := 0 to |platforms|
      invariant posts == expected[..i]
      invariant table.rows == old(table.rows) + posts
    {
      var platformContent := if autoGenerate then GenerateSocialContent(doc.title, doc.content, Some(platforms[i])) else message;
      var post := SocialPost(doc.id, platforms[i], platformContent,
                             if Present(scheduledTime) then scheduledTime else None,
                             if Present(scheduledTime) then Scheduled else Draft,
                             userId);
      assert post == expected[i];
      var _ := table.Create(post);
      posts := posts + [post];
      assert expected[..i + 1] == expected[..i] + [expected[i]];
    }
    assert expected[..|platforms|] == expected;
  }

  /** The `posts.map` that triggers each created post. */
  method TriggerPosts(table: SocialPosts, base: nat, posts: seq<SocialPost>, fails: set<nat>)
    requires base <= |table.rows| && table.rows == table.rows[..base] + posts
    modifies table
    ensures table.rows == old(table.rows)[..base] + TriggeredUpTo(posts, fails, |posts|)
  {
    ghost var before := table.rows[..base];
    assert TriggeredUpTo(posts, fails, 0) == posts;
    for i := 0 to |posts|
      invariant table.rows == before + TriggeredUpTo(posts, fails, i)
    {
      table.SetStatus(base + i, if i in fails then Failed else Published);
      assert before + TriggeredUpTo(posts, fails, i + 1)
          == (before + TriggeredUpTo(posts, fails, i))[base + i := Triggered(posts[i], i in fails)];
    }
  }
}
