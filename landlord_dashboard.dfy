/**
 * `src/components/dashboard/LandlordDashboard.tsx`: the landlord's statistics, the per-listing
 * application count, the application badge, and approving or rejecting an application.
 */
module LandlordDashboard {
  import opened Seqs
  import opened Types

  // ---------------------------------------------------------------------------------------
  // Statistics

  datatype DashboardStats = DashboardStats(
    totalProperties: nat,
    totalViews: int,
    totalInquiries: nat,
    totalApplications: nat)

  /** The number of inquiries is a fixed figure, not derived from any list. */
  const MockInquiries: nat := 5

  /** `properties.reduce((sum, prop) => sum + prop.views, 0)`, folding from the left. */
  function TotalViews(properties: seq<Property>): (total: int)
    ensures (forall i :: 0 <= i < |properties| ==> properties[i].views >= 0) ==> total >= 0
  {
    if properties == [] then 0
    else TotalViews(properties[..|properties| - 1]) + properties[|properties| - 1].views
  }

  /** The sum splits over concatenation. */
  lemma {:induction false} TotalViewsAppend(a: seq<Property>, b: seq<Property>)
    ensures TotalViews(a + b) == TotalViews(a) + TotalViews(b)
  {
    if b == [] {
      assert a + b == a;
    } else {
      var c := a + b;
      assert c[..|c| - 1] == a + b[..|b| - 1];
      TotalViewsAppend(a, b[..|b| - 1]);
    }
  }

  /** With no negative view counts, every listing's views are within the total. */
  lemma {:induction false} TotalViewsBound(properties: seq<Property>, k: nat)
    requires forall i :: 0 <= i < |properties| ==> properties[i].views >= 0
    requires k < |properties|
    ensures properties[k].views <= TotalViews(properties)
  {
    var n := |properties| - 1;
    var init := properties[..n];
    forall i | 0 <= i < |init| ensures init[i].views >= 0 {
      assert init[i] == properties[i];
    }
    if k < n {
      TotalViewsBound(init, k);
      assert init[k] == properties[k];
    }
  }

  /** `mockStats`. */
  function ComputeStats(properties: seq<Property>, applications: seq<PropertyApplication>): (s: DashboardStats)
    ensures s.totalProperties == |properties| && s.totalApplications == |applications|
    ensures s.totalInquiries == MockInquiries
    ensures s.totalViews == TotalViews(properties)
    ensures (forall i :: 0 <= i < |properties| ==> properties[i].views >= 0) ==> s.totalViews >= 0
  {
    DashboardStats(|properties|, TotalViews(properties), MockInquiries, |applications|)
  }

  // ---------------------------------------------------------------------------------------
  // Applications

  function ForProperty(propertyId: string): PropertyApplication -> bool {
    (app: PropertyApplication) => app.propertyId == propertyId
  }

  /** `applications.filter(app => app.propertyId === property.id).length`. */
  function ApplicationCount(applications: seq<PropertyApplication>, propertyId: string): (n: nat)
    ensures n == Count(applications, ForProperty(propertyId))
    ensures n <= |applications|
  {
    FilterLength(applications, ForProperty(propertyId));
    |Filter(applications, ForProperty(propertyId))|
  }

  datatype Action = Approve | Reject

  function ActionStatus(action: Action): string {
    match action
    case Approve => "approved"
    case Reject => "rejected"
  }

  /** The success toast. */
  function ActionMessage(action: Action): string {
    "Application " + ActionStatus(action) + " successfully"
  }

  /** `handleApplicationAction`'s update: every application with that id takes the action's
      status; nothing else changes. */
  function ApplyAction(applications: seq<PropertyApplication>, applicationId: string, action: Action)
    : (r: seq<PropertyApplication>)
    ensures |r| == |applications|
    ensures forall k :: 0 <= k < |r| ==> r[k].(status := applications[k].status) == applications[k]
    ensures forall k :: 0 <= k < |r| && applications[k].id == applicationId ==> r[k].status == ActionStatus(action)
    ensures forall k :: 0 <= k < |r| && applications[k].id != applicationId ==> r[k] == applications[k]
  {
    seq(|applications|, k requires 0 <= k < |applications| =>
      if applications[k].id == applicationId then applications[k].(status := ActionStatus(action))
      else applications[k])
  }

  /** An id that matches no application changes nothing. */
  lemma {:induction false} ApplyUnknownId(applications: seq<PropertyApplication>, applicationId: string, action: Action)
    requires forall k :: 0 <= k < |applications| ==> applications[k].id != applicationId
    ensures ApplyAction(applications, applicationId, action) == applications
  {
  }

  /** A second action on the same application overrides the first. */
  lemma {:induction false} LastActionWins(applications: seq<PropertyApplication>, applicationId: string, first: Action, second: Action)
    ensures ApplyAction(ApplyAction(applications, applicationId, first), applicationId, second) ==
      ApplyAction(applications, applicationId, second)
  {
    var once := ApplyAction(applications, applicationId, first);
    var twice := ApplyAction(once, applicationId, second);
    var direct := ApplyAction(applications, applicationId, second);
    forall k | 0 <= k < |applications| ensures twice[k] == direct[k] {
      assert once[k].id == applications[k].id;
    }
  }

  /** Approving or rejecting never moves an application to another listing, so every listing's
      application count stays the same. */
  lemma {:induction false} ApplyKeepsCounts(applications: seq<PropertyApplication>, applicationId: string,
                                            action: Action, propertyId: string)
    ensures ApplicationCount(ApplyAction(applications, applicationId, action), propertyId) ==
      ApplicationCount(applications, propertyId)
  {
    if applications != [] {
      var r := ApplyAction(applications, applicationId, action);
      assert r[1..] == ApplyAction(applications[1..], applicationId, action);
      ApplyKeepsCounts(applications[1..], applicationId, action, propertyId);
      assert r[0].propertyId == applications[0].propertyId;
    }
  }

  /** Approve and Reject buttons are drawn only for a pending application. */
  predicate ActionsOffered(app: PropertyApplication) {
    app.status == "pending"
  }

  /** Once acted on, an application is no longer offered the actions. */
  lemma {:induction false} ActedOnIsSettled(applications: seq<PropertyApplication>, applicationId: string, action: Action, k: nat)
    requires k < |applications| && applications[k].id == applicationId
    ensures !ActionsOffered(ApplyAction(applications, applicationId, action)[k])
  {
    assert ActionStatus(action)[0] != 'p';
  }

  datatype ApplicationBadge = ApprovedBadge | RejectedBadge | PendingBadge

  /** `getApplicationStatusBadge`: anything but approved or rejected shows as pending. */
  function StatusBadge(status: string): (b: ApplicationBadge)
    ensures b == ApprovedBadge <==> status == "approved"
    ensures b == RejectedBadge <==> status == "rejected"
    ensures b == PendingBadge <==> status != "approved" && status != "rejected"
  {
    if status == "approved" then ApprovedBadge
    else if status == "rejected" then RejectedBadge
    else PendingBadge
  }

  /** The badge of an acted-on application names the action taken. */
  lemma {:induction false} BadgeAfterAction(applications: seq<PropertyApplication>, applicationId: string, action: Action, k: nat)
    requires k < |applications| && applications[k].id == applicationId
    ensures StatusBadge(ApplyAction(applications, applicationId, action)[k].status) ==
      if action == Approve then ApprovedBadge else RejectedBadge
  {
  }
}
