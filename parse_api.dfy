/**
 * The Parse REST API route table (parseAPI) and the requests its
 * benchmarks send. The table's distinct path templates are named once and
 * the table lists them in the source's order.
 */
module ParseApi {
  import opened Routes
  import opened PathRewrite
  import opened Adapters

  const ClassPath: string := "/1/classes/:className"
  const ObjectPath: string := "/1/classes/:className/:objectId"
  const UsersPath: string := "/1/users"
  const LoginPath: string := "/1/login"
  const UserPath: string := "/1/users/:objectId"
  const PasswordResetPath: string := "/1/requestPasswordReset"
  const RolesPath: string := "/1/roles"
  const RolePath: string := "/1/roles/:objectId"
  const FilePath: string := "/1/files/:fileName"
  const EventPath: string := "/1/events/:eventName"
  const PushPath: string := "/1/push"
  const InstallationsPath: string := "/1/installations"
  const InstallationPath: string := "/1/installations/:objectId"
  const FunctionsPath: string := "/1/functions"

  /** parseAPI, in table order. */
  const ParseAPI: seq<Route> := [
    // Objects
    Route("POST", ClassPath),
    Route("GET", ObjectPath),
    Route("PUT", ObjectPath),
    Route("GET", ClassPath),
    Route("DELETE", ObjectPath),
    // Users
    Route("POST", UsersPath),
    Route("GET", LoginPath),
    Route("GET", UserPath),
    Route("PUT", UserPath),
    Route("GET", UsersPath),
    Route("DELETE", UserPath),
    Route("POST", PasswordResetPath),
    // Roles
    Route("POST", RolesPath),
    Route("GET", RolePath),
    Route("PUT", RolePath),
    Route("GET", RolesPath),
    Route("DELETE", RolePath),
    // Files
    Route("POST", FilePath),
    // Analytics
    Route("POST", EventPath),
    // Push Notifications
    Route("POST", PushPath),
    // Installations
    Route("POST", InstallationsPath),
    Route("GET", InstallationPath),
    Route("PUT", InstallationPath),
    Route("GET", InstallationsPath),
    Route("DELETE", InstallationPath),
    // Cloud Functions
    Route("POST", FunctionsPath)
  ]

  /** The request of the static benchmarks. */
  const StaticRequest: Route := Route("GET", "/1/users")
  /** The request path of the one-parameter benchmarks (method GET). */
  const ParamRequest: string := "/1/classes/go"
  /** The request path of the two-parameter benchmarks (method GET). */
  const TwoParamsRequest: string := "/1/classes/go/123456789"

  /** The length printed at start-up. */
  lemma ParseAPICount()
    ensures |ParseAPI| == 26
  {
  }

  /** Every method of the table is one of the five the switch-based loaders accept. */
  lemma ParseAPIMethodsAccepted()
    ensures forall i :: 0 <= i < |ParseAPI| ==> Accepted(ParseAPI[i].httpMethod)
  {
  }

  /**
   * So every switch-based bulk loader registers the whole table, in order,
   * without panicking.
   */
  lemma ParseAPILoadsFully(lib: Library, app: Load<seq<Registration>>)
    requires LoadedInOrder(lib, ParseAPI, app)
    ensures !app.Aborted() && |app.router| == 26
    ensures Replay(app.router) == ParseAPI
  {
    ParseAPIMethodsAccepted();
    AllAcceptedLoadsFully(lib, ParseAPI, app);
    ReplayRecoversTable(lib, ParseAPI, app);
  }

  /** No two entries share both method and path. */
  lemma ParseAPIDistinct()
    ensures forall i, j :: 0 <= i < j < |ParseAPI| ==> ParseAPI[i] != ParseAPI[j]
  {
  }

  lemma ObjectPathsColonsLead()
    ensures ColonsLeadSegments(ClassPath) && ColonsLeadSegments(ObjectPath)
  {
    assert ColonsLeadSegments(ClassPath) by {}
  }

  lemma UserPathsColonsLead()
    ensures ColonsLeadSegments(UsersPath) && ColonsLeadSegments(LoginPath)
    ensures ColonsLeadSegments(UserPath) && ColonsLeadSegments(PasswordResetPath)
  {
    assert ColonsLeadSegments(UsersPath) by {}
    assert ColonsLeadSegments(LoginPath) by {}
    assert ColonsLeadSegments(UserPath) by {}
  }

  lemma RolePathsColonsLead()
    ensures ColonsLeadSegments(RolesPath) && ColonsLeadSegments(RolePath)
    ensures ColonsLeadSegments(FilePath) && ColonsLeadSegments(EventPath) && ColonsLeadSegments(PushPath)
  {
    assert ColonsLeadSegments(RolesPath) by {}
    assert ColonsLeadSegments(RolePath) by {}
    assert ColonsLeadSegments(FilePath) by {}
    assert ColonsLeadSegments(EventPath) by {}
  }

  lemma InstallationPathsColonsLead()
    ensures ColonsLeadSegments(InstallationsPath) && ColonsLeadSegments(InstallationPath)
    ensures ColonsLeadSegments(FunctionsPath)
  {
    assert ColonsLeadSegments(InstallationsPath) by {}
    assert ColonsLeadSegments(InstallationPath) by {}
  }

  /** In every path of the table, each ':' opens a segment (so no segment holds two). */
  lemma ParseAPIColonsLead()
    ensures forall i :: 0 <= i < |ParseAPI| ==> ColonsLeadSegments(ParseAPI[i].path)
  {
    ObjectPathsColonsLead();
    UserPathsColonsLead();
    RolePathsColonsLead();
    InstallationPathsColonsLead();
  }

  /** Hence the gorilla/mux template of every entry is free of ':'. */
  lemma ParseAPIBraceTemplates()
    ensures forall i :: 0 <= i < |ParseAPI| ==> ':' !in GorillaTemplate(ParseAPI[i].path)
  {
    ParseAPIColonsLead();
    forall i | 0 <= i < |ParseAPI| ensures ':' !in GorillaTemplate(ParseAPI[i].path) {
      LeadingColonsAllReplaced(ParseAPI[i].path);
    }
  }

  /** The static request is itself an entry of the table. */
  lemma ParseStaticIsRoute()
    ensures StaticRequest in ParseAPI
  {
    assert ParseAPI[9] == StaticRequest;
  }

  lemma ClassPathSlashed()
    ensures ClassPath == Slashed(["1", "classes", ":className"])
  {
  }

  lemma ObjectPathSlashed()
    ensures ObjectPath == Slashed(["1", "classes", ":className"] + [":objectId"])
  {
    ClassPathSlashed();
    assert ObjectPath == ClassPath + "/:objectId";
    SlashedAppend(["1", "classes", ":className"], [":objectId"]);
  }

  lemma ParamRequestSlashed()
    ensures ParamRequest == Slashed(["1", "classes", "go"])
  {
  }

  lemma TwoParamsRequestSlashed()
    ensures TwoParamsRequest == Slashed(["1", "classes", "go"] + ["123456789"])
  {
    ParamRequestSlashed();
    assert TwoParamsRequest == ParamRequest + "/123456789";
    SlashedAppend(["1", "classes", "go"], ["123456789"]);
  }

  lemma ParamSegmentsFit()
    ensures SegmentsFit([""] + ["1", "classes", "go"], [""] + ["1", "classes", ":className"])
  {
  }

  lemma TwoParamsSegmentsFit()
    ensures SegmentsFit([""] + (["1", "classes", "go"] + ["123456789"]), [""] + (["1", "classes", ":className"] + [":objectId"]))
  {
  }

  /** The entries the parameter benchmarks target: GET `/1/classes/:className` and GET `/1/classes/:className/:objectId`. */
  lemma ParseParamTargets()
    ensures ParseAPI[3] == Route("GET", ClassPath)
    ensures ParseAPI[1] == Route("GET", ObjectPath)
  {
  }

  /** The one-parameter request fills the parameter of the GET `/1/classes/:className` entry. */
  lemma ParseParamFits()
    ensures Fits(ParamRequest, ClassPath)
  {
    ClassPathSlashed();
    ParamRequestSlashed();
    ParamSegmentsFit();
    FitsOfSlashed(ParamRequest, ClassPath, ["1", "classes", "go"], ["1", "classes", ":className"]);
  }

  /** The two-parameter request fills both parameters of the GET `/1/classes/:className/:objectId` entry. */
  lemma Parse2ParamsFits()
    ensures Fits(TwoParamsRequest, ObjectPath)
  {
    ObjectPathSlashed();
    TwoParamsRequestSlashed();
    TwoParamsSegmentsFit();
    FitsOfSlashed(TwoParamsRequest, ObjectPath, ["1", "classes", "go"] + ["123456789"], ["1", "classes", ":className"] + [":objectId"]);
  }
}
