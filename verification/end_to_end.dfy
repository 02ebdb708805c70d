/**
  The client and the routes composed: what a browser call returns, stated
  directly in terms of the store. Each lemma feeds a client request body to
  the matching route and reads the route's answer back through the client.
 */
module EndToEnd {
  import opened Common
  import opened Records
  import Storage
  import Routes
  import Client

  /** Fetching one project yields `undefined` exactly when the store has none with that id. */
  lemma GetProjectAgrees(s: Storage.Store, id: string)
    ensures Client.GetProject(Routes.GetProjectRoute(s, id, false).response) == Returned(Storage.GetProject(s, id))
  {
  }

  /** A failing store surfaces as the client's own message, never as `undefined`. */
  lemma GetProjectFault(s: Storage.Store, id: string)
    ensures Client.GetProject(Routes.GetProjectRoute(s, id, true).response) == Threw("Failed to fetch project")
  {
  }

  lemma GetArticleAgrees(s: Storage.Store, id: string)
    ensures Client.GetArticle(Routes.GetArticleRoute(s, id, false).response) == Returned(Storage.GetArticle(s, id))
  {
  }

  lemma ListsAgree(s: Storage.Store)
    ensures Client.GetAllProjects(Routes.ListProjects(s, false).response) == Returned(Storage.GetAllProjects(s))
    ensures Client.GetAllContactSubmissions(Routes.ListContactsRoute(s, false).response)
      == Returned(Storage.GetAllContactSubmissions(s))
    ensures Client.GetAllArticles(Routes.ListArticlesRoute(s, false).response) == Returned(Storage.GetAllArticles(s))
  {
  }

  /** The client's `true` from a delete is exactly the store's `true`; a failing store reads as `false`. */
  lemma DeleteAgrees(s: Storage.Store, id: string, fault: bool)
    ensures Client.DeleteProject(Routes.DeleteProjectRoute(s, id, fault).response)
      == (!fault && Storage.DeleteProject(s, id).value)
  {
  }

  /** Whatever the client encodes passes validation, so creation returns what the store created. */
  lemma CreateProjectRoundTrip(s: Storage.Store, x: InsertProject, now: Timestamp)
    ensures var h := Routes.CreateProjectRoute(s, Client.CreateProjectRequest(x), now, false);
      var t := Storage.CreateProject(s, x, now);
      && Client.CreateProject(h.response) == Returned(t.value)
      && h.store == t.store
      && Storage.ProjectInput(t.value) == x
  {
    InsertProjectRoundTrip(x);
  }

  lemma UpdateProjectRoundTrip(s: Storage.Store, id: string, patch: ProjectPatch)
    ensures var h := Routes.UpdateProjectRoute(s, id, Client.UpdateProjectRequest(patch), false);
      var t := Storage.UpdateProject(s, id, patch);
      && Client.UpdateProject(h.response) == Returned(t.value)
      && h.store == t.store
  {
    ProjectPatchRoundTrip(patch);
  }

  lemma CreateContactSubmissionRoundTrip(s: Storage.Store, x: InsertContactSubmission, now: Timestamp)
    ensures var h := Routes.CreateContactRoute(s, Client.CreateContactSubmissionRequest(x), now, false);
      var t := Storage.CreateContactSubmission(s, x, now);
      && Client.CreateContactSubmission(h.response) == Returned(t.value)
      && h.store == t.store
  {
    InsertContactSubmissionRoundTrip(x);
  }

  lemma CreateArticleRoundTrip(s: Storage.Store, x: InsertArticle, publishedAt: Timestamp, createdAt: Timestamp)
    ensures var h := Routes.CreateArticleRoute(s, Client.CreateArticleRequest(x), publishedAt, createdAt, false);
      var t := Storage.CreateArticle(s, x, publishedAt, createdAt);
      && Client.CreateArticle(h.response) == Returned(t.value)
      && h.store == t.store
  {
    InsertArticleRoundTrip(x);
  }

  /** A body the update schema refuses is a 400, which the client throws on rather than reading as "not found". */
  lemma InvalidUpdateThrows(s: Storage.Store, id: string, body: Json.Json)
    requires ParseProjectPatch(body).Failure?
    ensures Client.UpdateProject(Routes.UpdateProjectRoute(s, id, body, false).response) == Threw("Failed to update project")
  {
  }
}
