/** The workspace query helpers (site/src/api/queries/workspaces.ts): the
    query keys, the rules that write workspaces into the shared query cache
    after a mutation succeeds, and the request `autoCreateWorkspace` sends.

    The query cache is a map from key to the cached workspace; an
    invalidation is recorded as the key it names. API requests are values of
    `ApiCall`; what the server answers is a parameter. */
module Workspaces {
  import opened Wrappers

  /** One element of a query key: a string, or the `{ q, limit }` filter
      object of the workspaces list. */
  datatype KeyPart = Segment(s: string) | Filter(q: Option<string>, limit: Option<int>)

  type QueryKey = seq<KeyPart>

  /** The fields of a build that these rules read; `updated_at` is the
      build's timestamp as an integer. */
  datatype WorkspaceBuild = WorkspaceBuild(
    id: string,
    workspace_id: string,
    workspace_owner_name: string,
    workspace_name: string,
    template_version_id: string,
    updated_at: int)

  datatype Workspace = Workspace(
    id: string,
    owner_name: string,
    name: string,
    template_name: string,
    outdated: bool,
    favorite: bool,
    latest_build: WorkspaceBuild)

  datatype BuildParameter = BuildParameter(name: string, value: string)

  /** The template part of a create request: exactly one of the two ids. */
  datatype TemplateChoice = TemplateVersionId(versionId: string) | TemplateId(templateId: string)

  datatype CreateWorkspaceRequest = CreateWorkspaceRequest(
    template: TemplateChoice,
    name: string,
    rich_parameter_values: Option<seq<BuildParameter>>)

  /** The API requests these helpers issue. */
  datatype ApiCall =
    | GetWorkspaces(q: Option<string>, limit: Option<int>)
    | GetWorkspaceByOwnerAndName(owner: string, workspaceName: string, includeDeleted: bool)
    | GetTemplateByName(organizationId: string, templateName: string)
    | CreateWorkspace(organizationId: string, user: string, request: CreateWorkspaceRequest)
    | UpdateWorkspaceDormancy(workspaceId: string, dormant: bool)
    | PutFavoriteWorkspace(workspaceId: string)
    | DeleteFavoriteWorkspace(workspaceId: string)

  /** A query: its cache key and the request that fills it. */
  datatype QueryOptions = QueryOptions(queryKey: QueryKey, fetch: ApiCall)

  /** `workspaceByOwnerAndNameKey(owner, name)`. */
  function WorkspaceByOwnerAndNameKey(owner: string, name: string): QueryKey
  {
    [Segment("workspace"), Segment(owner), Segment(name), Segment("settings")]
  }

  /** Distinct workspaces never share a cache entry, and one workspace always
      maps to the same entry. */
  lemma WorkspaceKeyInjective(owner1: string, name1: string, owner2: string, name2: string)
    ensures WorkspaceByOwnerAndNameKey(owner1, name1) == WorkspaceByOwnerAndNameKey(owner2, name2)
      <==> owner1 == owner2 && name1 == name2
  {
  }

  /** `workspaceByOwnerAndName(owner, name)`: fetches, deleted workspaces
      included, the very workspace its key names. */
  function WorkspaceByOwnerAndName(owner: string, name: string): (query: QueryOptions)
    ensures query.queryKey == WorkspaceByOwnerAndNameKey(owner, name)
    ensures query.fetch.GetWorkspaceByOwnerAndName?
    ensures WorkspaceByOwnerAndNameKey(query.fetch.owner, query.fetch.workspaceName) == query.queryKey
    ensures query.fetch.includeDeleted
  {
    QueryOptions(WorkspaceByOwnerAndNameKey(owner, name), GetWorkspaceByOwnerAndName(owner, name, true))
  }

  /** The `WorkspacesRequest` filter; `offset` is one of the fields the
      workspaces key leaves out. */
  datatype WorkspacesRequest = WorkspacesRequest(q: Option<string>, limit: Option<int>, offset: Option<int>)

  /** `workspacesKey(config = {})`: an omitted config is the empty request. */
  function WorkspacesKey(config: Option<WorkspacesRequest>): QueryKey
  {
    var request := config.GetOr(WorkspacesRequest(None, None, None));
    [Segment("workspaces"), Filter(request.q, request.limit)]
  }

  /** The workspaces key depends on `q` and `limit` and on nothing else: two
      requests share a key exactly when they agree on both. */
  lemma WorkspacesKeyKeepsOnlyQueryAndLimit(a: WorkspacesRequest, b: WorkspacesRequest)
    ensures WorkspacesKey(Some(a)) == WorkspacesKey(Some(b)) <==> a.q == b.q && a.limit == b.limit
    ensures WorkspacesKey(None) == WorkspacesKey(Some(WorkspacesRequest(None, None, a.offset)))
  {
  }

  /** The workspaces list key never collides with a single workspace's key. */
  lemma WorkspacesKeyDistinctFromWorkspaceKey(config: Option<WorkspacesRequest>, owner: string, name: string)
    ensures WorkspacesKey(config) != WorkspaceByOwnerAndNameKey(owner, name)
  {
  }

  /** `workspaces(config = {})`: its key is `workspacesKey(config)`, and the
      request it sends carries exactly the filter recorded in that key, so no
      field outside the key can change what is fetched. */
  function WorkspacesQuery(config: Option<WorkspacesRequest>): (query: QueryOptions)
    ensures query.queryKey == WorkspacesKey(config)
    ensures query.fetch.GetWorkspaces?
    ensures query.queryKey[1] == Filter(query.fetch.q, query.fetch.limit)
  {
    var request := config.GetOr(WorkspacesRequest(None, None, None));
    QueryOptions(WorkspacesKey(config), GetWorkspaces(request.q, request.limit))
  }

  /** The options of `autoCreateWorkspace`; an omitted `versionId` is `None`. */
  datatype AutoCreateWorkspaceOptions = AutoCreateWorkspaceOptions(
    templateName: string,
    versionId: Option<string>,
    organizationId: string,
    defaultBuildParameters: Option<seq<BuildParameter>>,
    defaultName: string)

  /** JavaScript truthiness of an optional string: defined and non-empty. */
  predicate Truthy(s: Option<string>)
  {
    s.Some? && s.value != ""
  }

  /** The requests `autoCreateWorkspace` sends, in order. `templateId` is the
      server's answer to the template lookup, when one is made: the template's
      id, or `None` when the lookup fails (no template by that name), which
      rejects the mutation before any create is sent. */
  function AutoCreateWorkspaceCalls(options: AutoCreateWorkspaceOptions, templateId: Option<string>): (calls: seq<ApiCall>)
    ensures |calls| == if !Truthy(options.versionId) && templateId.Some? then 2 else 1
    ensures !Truthy(options.versionId) ==> calls[0] == GetTemplateByName(options.organizationId, options.templateName)
    ensures !Truthy(options.versionId) && templateId.None? ==> calls == [GetTemplateByName(options.organizationId, options.templateName)]
    ensures calls[|calls| - 1].CreateWorkspace? <==> Truthy(options.versionId) || templateId.Some?
    ensures calls[|calls| - 1].CreateWorkspace? ==> var create := calls[|calls| - 1];
      && create.organizationId == options.organizationId
      && create.user == "me"
      && create.request.name == options.defaultName
      && create.request.rich_parameter_values == options.defaultBuildParameters
      && (Truthy(options.versionId) ==> create.request.template == TemplateVersionId(options.versionId.value))
      && (!Truthy(options.versionId) ==> create.request.template == TemplateId(templateId.value))
    ensures forall i :: 0 <= i < |calls| ==> !calls[i].GetTemplateByName? || !Truthy(options.versionId)
  {
    var create := (choice: TemplateChoice) =>
      CreateWorkspace(options.organizationId, "me",
        CreateWorkspaceRequest(choice, options.defaultName, options.defaultBuildParameters));
    var lookup := GetTemplateByName(options.organizationId, options.templateName);
    if Truthy(options.versionId) then
      [create(TemplateVersionId(options.versionId.value))]
    else if templateId.Some? then
      [lookup, create(TemplateId(templateId.value))]
    else
      [lookup]
  }

  /** With a truthy `versionId` nothing depends on the template lookup: the
      requests are the same whatever the lookup would have answered, even a
      failure. */
  lemma VersionIdSkipsTemplateLookup(options: AutoCreateWorkspaceOptions, answer1: Option<string>, answer2: Option<string>)
    requires Truthy(options.versionId)
    ensures AutoCreateWorkspaceCalls(options, answer1) == AutoCreateWorkspaceCalls(options, answer2)
  {
  }

  /** The client-side query cache: the cached workspaces by key, and the keys
      invalidated so far, oldest first. */
  class QueryClient {
    var data: map<QueryKey, Workspace>
    var invalidated: seq<QueryKey>

    constructor ()
      ensures data == map[] && invalidated == []
    {
      data := map[];
      invalidated := [];
    }

    /** `setQueryData(key, workspace)`: overwrites one entry. */
    method SetQueryData(key: QueryKey, workspace: Workspace)
      modifies this
      ensures data == old(data)[key := workspace]
      ensures invalidated == old(invalidated)
    {
      data := data[key := workspace];
    }

    /** `invalidateQueries({ queryKey })`: marks the key stale. */
    method InvalidateQueries(key: QueryKey)
      modifies this
      ensures invalidated == old(invalidated) + [key]
      ensures data == old(data)
    {
      invalidated := invalidated + [key];
    }
  }

  /** The cached workspace after `build` arrives: the newer build wins, and a
      build no later than the cached one is dropped. */
  function WithNewestBuild(previous: Workspace, build: WorkspaceBuild): (next: Workspace)
    ensures next.(latest_build := previous.latest_build) == previous
    ensures next.latest_build == build || next.latest_build == previous.latest_build
    ensures build.updated_at > previous.latest_build.updated_at ==> next.latest_build == build
    ensures build.updated_at <= previous.latest_build.updated_at ==> next == previous
    ensures next.latest_build.updated_at >= previous.latest_build.updated_at
    ensures next.latest_build.updated_at >= build.updated_at
  {
    if build.updated_at > previous.latest_build.updated_at then
      previous.(latest_build := build)
    else
      previous
  }

  /** Builds carrying distinct timestamps may arrive in either order (from the
      mutation or from the web socket): the cached workspace ends up the same. */
  lemma ArrivalOrderIrrelevant(w: Workspace, b1: WorkspaceBuild, b2: WorkspaceBuild)
    requires b1.updated_at != b2.updated_at
    ensures WithNewestBuild(WithNewestBuild(w, b1), b2) == WithNewestBuild(WithNewestBuild(w, b2), b1)
  {
  }

  /** Delivering the same build twice changes nothing the second time. */
  lemma NewestBuildIdempotent(w: Workspace, build: WorkspaceBuild)
    ensures WithNewestBuild(WithNewestBuild(w, build), build) == WithNewestBuild(w, build)
  {
  }

  /** `updateWorkspaceBuild(build, queryClient)`. The cached entry for the
      build's workspace must exist (the source casts it without a check). */
  method UpdateWorkspaceBuild(build: WorkspaceBuild, queryClient: QueryClient, workspaceBuildsKey: string -> QueryKey)
    requires WorkspaceByOwnerAndNameKey(build.workspace_owner_name, build.workspace_name) in queryClient.data
    modifies queryClient
    ensures var key := WorkspaceByOwnerAndNameKey(build.workspace_owner_name, build.workspace_name);
      var previous := old(queryClient.data)[key];
      && (build.updated_at > previous.latest_build.updated_at ==>
            queryClient.data == old(queryClient.data)[key := previous.(latest_build := build)])
      && (build.updated_at <= previous.latest_build.updated_at ==> queryClient.data == old(queryClient.data))
      && queryClient.data == old(queryClient.data)[key := WithNewestBuild(previous, build)]
    ensures queryClient.invalidated == old(queryClient.invalidated) + [workspaceBuildsKey(build.workspace_id)]
  {
    var workspaceKey := WorkspaceByOwnerAndNameKey(build.workspace_owner_name, build.workspace_name);
    var previousData := queryClient.data[workspaceKey];
    if build.updated_at > previousData.latest_build.updated_at {
      queryClient.SetQueryData(workspaceKey, previousData.(latest_build := build));
    }
    queryClient.InvalidateQueries(workspaceBuildsKey(build.workspace_id));
  }

  /** The request `toggleFavorite` sends: unfavourite a favourite, favourite
      anything else. */
  function FavoriteRequest(workspace: Workspace): (call: ApiCall)
    ensures call.DeleteFavoriteWorkspace? <==> workspace.favorite
    ensures call.PutFavoriteWorkspace? <==> !workspace.favorite
    ensures call == DeleteFavoriteWorkspace(workspace.id) || call == PutFavoriteWorkspace(workspace.id)
  {
    if workspace.favorite then DeleteFavoriteWorkspace(workspace.id) else PutFavoriteWorkspace(workspace.id)
  }

  /** The workspace `toggleFavorite` caches on success. */
  function Toggled(workspace: Workspace): (toggled: Workspace)
    ensures toggled.favorite == !workspace.favorite
    ensures toggled.(favorite := workspace.favorite) == workspace
  {
    workspace.(favorite := !workspace.favorite)
  }

  /** Toggling twice restores the workspace, and the second toggle sends the
      opposite request to the same workspace. */
  lemma ToggleFavoriteTwice(workspace: Workspace)
    ensures Toggled(Toggled(workspace)) == workspace
    ensures FavoriteRequest(Toggled(workspace)) != FavoriteRequest(workspace)
    ensures FavoriteRequest(Toggled(workspace)).workspaceId == workspace.id
  {
  }

  /** `toggleFavorite(workspace, queryClient)`: sends the request; when it
      succeeds, caches the workspace with `favorite` negated under its
      owner/name key and invalidates that key. */
  method ToggleFavorite(workspace: Workspace, queryClient: QueryClient, succeeded: bool) returns (call: ApiCall)
    modifies queryClient
    ensures call == FavoriteRequest(workspace)
    ensures var key := WorkspaceByOwnerAndNameKey(workspace.owner_name, workspace.name);
      && (succeeded ==> queryClient.data == old(queryClient.data)[key := Toggled(workspace)])
      && (succeeded ==> queryClient.invalidated == old(queryClient.invalidated) + [key])
    ensures !succeeded ==> queryClient.data == old(queryClient.data) && queryClient.invalidated == old(queryClient.invalidated)
  {
    call := FavoriteRequest(workspace);
    if succeeded {
      queryClient.SetQueryData(WorkspaceByOwnerAndNameKey(workspace.owner_name, workspace.name), Toggled(workspace));
      queryClient.InvalidateQueries(WorkspaceByOwnerAndNameKey(workspace.owner_name, workspace.name));
    }
  }

  /** `activate(workspace, queryClient)`: asks the server to clear dormancy;
      on success the returned workspace overwrites the entry under the
      original workspace's owner/name key. `updated` is the server's answer,
      `None` when the request failed. */
  method Activate(workspace: Workspace, queryClient: QueryClient, updated: Option<Workspace>) returns (call: ApiCall)
    modifies queryClient
    ensures call == UpdateWorkspaceDormancy(workspace.id, false)
    ensures updated.Some? ==>
      queryClient.data == old(queryClient.data)[WorkspaceByOwnerAndNameKey(workspace.owner_name, workspace.name) := updated.value]
    ensures updated.None? ==> queryClient.data == old(queryClient.data)
    ensures queryClient.invalidated == old(queryClient.invalidated)
  {
    call := UpdateWorkspaceDormancy(workspace.id, false);
    if updated.Some? {
      queryClient.SetQueryData(WorkspaceByOwnerAndNameKey(workspace.owner_name, workspace.name), updated.value);
    }
  }
}
