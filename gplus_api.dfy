/**
 * The Google+ API route table (gplusAPI) and the requests its benchmarks
 * send. As for the Parse table, each distinct path template is named once.
 */
module GPlusApi {
  import opened Routes
  import opened PathRewrite
  import opened Adapters

  const PersonPath: string := "/people/:userId"
  const PeoplePath: string := "/people"
  const ActivityPeoplePath: string := "/activities/:activityId/people/:collection"
  const PersonPeoplePath: string := "/people/:userId/people/:collection"
  const OpenIdConnectPath: string := "/people/:userId/openIdConnect"
  const PersonActivitiesPath: string := "/people/:userId/activities/:collection"
  const ActivityPath: string := "/activities/:activityId"
  const ActivitiesPath: string := "/activities"
  const CommentsPath: string := "/activities/:activityId/comments"
  const CommentPath: string := "/comments/:commentId"
  const MomentsPath: string := "/people/:userId/moments/:collection"
  const MomentPath: string := "/moments/:id"

  /** gplusAPI, in table order. */
  const GPlusAPI: seq<Route> := [
    // People
    Route("GET", PersonPath),
    Route("GET", PeoplePath),
    Route("GET", ActivityPeoplePath),
    Route("GET", PersonPeoplePath),
    Route("GET", OpenIdConnectPath),
    // Activities
    Route("GET", PersonActivitiesPath),
    Route("GET", ActivityPath),
    Route("GET", ActivitiesPath),
    // Comments
    Route("GET", CommentsPath),
    Route("GET", CommentPath),
    // Moments
    Route("POST", MomentsPath),
    Route("GET", MomentsPath),
    Route("DELETE", MomentPath)
  ]

  /** The request of the static benchmarks. */
  const StaticRequest: Route := Route("GET", "/people")
  /** The request path of the one-parameter benchmarks (method GET). */
  const ParamRequest: string := "/people/118051310819094153327"
  /** The request path of the two-parameter benchmarks (method GET). */
  const TwoParamsRequest: string := "/people/118051310819094153327/activities/123456789"

  /** The length printed at start-up. */
  lemma GPlusAPICount()
    ensures |GPlusAPI| == 13
  {
  }

  /** The table uses GET, POST and DELETE only, all three accepted by the switch-based loaders. */
  lemma GPlusAPIMethods()
    ensures forall i :: 0 <= i < |GPlusAPI| ==> GPlusAPI[i].httpMethod in {"GET", "POST", "DELETE"}
    ensures forall i :: 0 <= i < |GPlusAPI| ==> Accepted(GPlusAPI[i].httpMethod)
  {
  }

  /**
   * So every switch-based bulk loader registers the whole table, in order,
   * without panicking.
   */
  lemma GPlusAPILoadsFully(lib: Library, app: Load<seq<Registration>>)
    requires LoadedInOrder(lib, GPlusAPI, app)
    ensures !app.Aborted() && |app.router| == 13
    ensures Replay(app.router) == GPlusAPI
  {
    GPlusAPIMethods();
    AllAcceptedLoadsFully(lib, GPlusAPI, app);
    ReplayRecoversTable(lib, GPlusAPI, app);
  }

  /** No two entries share both method and path. */
  lemma GPlusAPIDistinct()
    ensures forall i, j :: 0 <= i < j < |GPlusAPI| ==> GPlusAPI[i] != GPlusAPI[j]
  {
  }

  lemma PersonPathsColonsLead()
    ensures ColonsLeadSegments(PersonPath) && ColonsLeadSegments(PeoplePath)
    ensures ColonsLeadSegments(OpenIdConnectPath)
  {
    assert ColonsLeadSegments(PersonPath) by {}
    assert ColonsLeadSegments(PeoplePath) by {}
  }

  lemma PeoplePathsColonsLead()
    ensures ColonsLeadSegments(ActivityPeoplePath) && ColonsLeadSegments(PersonPeoplePath)
  {
    assert ColonsLeadSegments(ActivityPeoplePath) by {}
  }

  lemma ActivityPathsColonsLead()
    ensures ColonsLeadSegments(PersonActivitiesPath) && ColonsLeadSegments(ActivityPath)
    ensures ColonsLeadSegments(ActivitiesPath) && ColonsLeadSegments(CommentsPath)
  {
    assert ColonsLeadSegments(PersonActivitiesPath) by {}
    assert ColonsLeadSegments(ActivityPath) by {}
    assert ColonsLeadSegments(ActivitiesPath) by {}
  }

  lemma MomentPathsColonsLead()
    ensures ColonsLeadSegments(CommentPath) && ColonsLeadSegments(MomentsPath)
    ensures ColonsLeadSegments(MomentPath)
  {
    assert ColonsLeadSegments(CommentPath) by {}
    assert ColonsLeadSegments(MomentsPath) by {}
  }

  /** In every path of the table, each ':' opens a segment (so no segment holds two). */
  lemma GPlusAPIColonsLead()
    ensures forall i :: 0 <= i < |GPlusAPI| ==> ColonsLeadSegments(GPlusAPI[i].path)
  {
    PersonPathsColonsLead();
    PeoplePathsColonsLead();
    ActivityPathsColonsLead();
    MomentPathsColonsLead();
  }

  /** Hence the gorilla/mux template of every entry is free of ':'. */
  lemma GPlusAPIBraceTemplates()
    ensures forall i :: 0 <= i < |GPlusAPI| ==> ':' !in GorillaTemplate(GPlusAPI[i].path)
  {
    GPlusAPIColonsLead();
    forall i | 0 <= i < |GPlusAPI| ensures ':' !in GorillaTemplate(GPlusAPI[i].path) {
      LeadingColonsAllReplaced(GPlusAPI[i].path);
    }
  }

  /** The static request is itself an entry of the table. */
  lemma GPlusStaticIsRoute()
    ensures StaticRequest in GPlusAPI
  {
    assert GPlusAPI[1] == StaticRequest;
  }

  /** The entries the parameter benchmarks target: GET `/people/:userId` and GET `/people/:userId/activities/:collection`. */
  lemma GPlusParamTargets()
    ensures GPlusAPI[0] == Route("GET", PersonPath)
    ensures GPlusAPI[5] == Route("GET", PersonActivitiesPath)
  {
  }

  lemma PersonPathSlashed()
    ensures PersonPath == Slashed(["people", ":userId"])
  {
  }

  lemma PersonActivitiesPathSlashed()
    ensures PersonActivitiesPath == Slashed(["people", ":userId"] + ["activities", ":collection"])
  {
    PersonPathSlashed();
    PersonActivitiesPathSplits();
    CollectionSlashed();
    SlashedAppend(["people", ":userId"], ["activities", ":collection"]);
  }

  lemma PersonActivitiesPathSplits()
    ensures PersonActivitiesPath == PersonPath + "/activities/:collection"
  {
  }

  lemma CollectionSlashed()
    ensures "/activities/:collection" == Slashed(["activities", ":collection"])
  {
  }

  lemma TwoParamsRequestSplits()
    ensures TwoParamsRequest == ParamRequest + "/activities/123456789"
  {
  }

  lemma ParamRequestSlashed()
    ensures ParamRequest == Slashed(["people"] + ["118051310819094153327"])
  {
    assert ParamRequest == PeoplePath + "/118051310819094153327";
    assert PeoplePath == Slashed(["people"]);
    UserIdSlashed();
    SlashedAppend(["people"], ["118051310819094153327"]);
  }

  lemma UserIdSlashed()
    ensures "/118051310819094153327" == Slashed(["118051310819094153327"])
  {
  }

  lemma ActivityIdSlashed()
    ensures "/activities/123456789" == Slashed(["activities", "123456789"])
  {
  }

  lemma TwoParamsRequestSlashed()
    ensures TwoParamsRequest == Slashed(["people"] + ["118051310819094153327"] + ["activities", "123456789"])
  {
    ParamRequestSlashed();
    ActivityIdSlashed();
    TwoParamsRequestSplits();
    SlashedAppend(["people"] + ["118051310819094153327"], ["activities", "123456789"]);
  }

  lemma ParamSegmentsFit()
    ensures SegmentsFit([""] + (["people"] + ["118051310819094153327"]), [""] + ["people", ":userId"])
  {
  }

  lemma TwoParamsSegmentsFit()
    ensures SegmentsFit([""] + (["people"] + ["118051310819094153327"] + ["activities", "123456789"]),
                        [""] + (["people", ":userId"] + ["activities", ":collection"]))
  {
  }

  /** The one-parameter request fills the parameter of the GET `/people/:userId` entry. */
  lemma GPlusParamFits()
    ensures Fits(ParamRequest, PersonPath)
  {
    PersonPathSlashed();
    ParamRequestSlashed();
    ParamSegmentsFit();
    FitsOfSlashed(ParamRequest, PersonPath, ["people"] + ["118051310819094153327"], ["people", ":userId"]);
  }

  /** The two-parameter request fills both parameters of the GET `/people/:userId/activities/:collection` entry. */
  lemma GPlus2ParamsFits()
    ensures Fits(TwoParamsRequest, PersonActivitiesPath)
  {
    PersonActivitiesPathSlashed();
    TwoParamsRequestSlashed();
    TwoParamsSegmentsFit();
    FitsOfSlashed(TwoParamsRequest, PersonActivitiesPath,
                  ["people"] + ["118051310819094153327"] + ["activities", "123456789"],
                  ["people", ":userId"] + ["activities", ":collection"]);
  }
}
