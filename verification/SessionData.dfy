/** The adapter between the server's session answers and the app. */
module SessionData {
  import opened Wrappers
  import opened AuthSession
  import opened SessionExchange

  /** What the server answers, before the app projects it. */
  datatype ServerWorkspace = ServerWorkspace(name: string, publicId: string, role: string)

  datatype ServerBootstrap = ServerBootstrap(accountStatus: AccountStatus, expiresAt: Option<int>, provider: Provider, roles: seq<Role>,
                                             sessionPublicId: string, userPublicId: string, workspaces: seq<ServerWorkspace>)

  /** The app's view of a workspace: an owner's, and otherwise a manager's. */
  function ProjectedWorkspace(workspace: ServerWorkspace): Workspace {
    Workspace(workspace.name, workspace.publicId, if workspace.role == "owner" then BusinessOwner else BusinessManager)
  }

  function MobileProjection(value: ServerBootstrap): Bootstrap {
    Bootstrap(value.accountStatus, value.expiresAt, value.provider, value.roles, value.sessionPublicId, value.userPublicId,
              Some(seq(|value.workspaces|, i requires 0 <= i < |value.workspaces| => ProjectedWorkspace(value.workspaces[i]))), None, None)
  }
}
