/** The three Convex tables (convex/schema.ts) and the database that holds them. */
module ConvexSchema {
  import opened Wrappers
  import opened LeadTypes

  /** A document id; ids are handed out by the database. */
  type Id = nat

  datatype Workspace = Workspace(
    id: Id,
    creationTime: int,
    workspaceName: string,
    bookingUrl: string,
    successPageUrl: string,
    formProvider: string,
    criteria: WorkspaceCriteria,
    slackAccessToken: Option<string>,
    slackChannelId: Option<string>)

  /** One qualification event, with exactly the fields `analytics.insert` accepts. */
  datatype AnalyticsRow = AnalyticsRow(
    event: string,
    email: string,
    domain: string,
    workspaceName: string,
    qualified: QualificationResult,
    ts: int,
    employees: Option<int>,
    funding: Option<real>,
    sector: Option<string>,
    size: Option<string>)

  datatype User = User(
    id: Id,
    subject: string,
    email: Option<string>,
    name: Option<string>,
    imageUrl: Option<string>,
    createdAt: int,
    updatedAt: int,
    workspaceId: Option<Id>)

  /** The Convex database: each table in insertion order, and the next free id. */
  class Db {
    var workspaces: seq<Workspace>
    var users: seq<User>
    var analytics: seq<AnalyticsRow>
    var nextId: Id

    constructor (workspaces: seq<Workspace>, firstId: Id)
      ensures this.workspaces == workspaces && users == [] && analytics == [] && nextId == firstId
    {
      this.workspaces := workspaces;
      users := [];
      analytics := [];
      nextId := firstId;
    }
  }
}
