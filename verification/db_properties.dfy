/** What the queries, the quota and the expiry sweep of db.js guarantee. */
module DbProperties {
  import opened Common
  import opened Records
  import opened Db

  /** The quota table: 2, 5 and 10 for the three tiers, 0 for every other string. */
  lemma AppLimitTable(plan: string)
    ensures AppLimit("starter") == 2 && AppLimit("pro") == 5 && AppLimit("business") == 10
    ensures !IsPlan(plan) ==> AppLimit(plan) == 0
  {
  }

  /**
   * The current subscription is exactly the user's row with the greatest
   * creation order: it has it, and no other row of the user does.
   */
  lemma {:induction false} CurrentIsLatest(subs: seq<Subscription>, userId: nat, k: nat)
    requires CreatedIncreasing(subs)
    requires k < |subs| && subs[k].userId == userId
    ensures CurrentSubscription(subs, userId) == Some(subs[k])
        <==> forall j :: 0 <= j < |subs| && subs[j].userId == userId ==> subs[j].created <= subs[k].created
  {
    var n := |subs|;
    var prefix := subs[..n - 1];
    if subs[n - 1].userId == userId {
      if k < n - 1 {
        assert subs[k].created < subs[n - 1].created;
        assert subs[k] != subs[n - 1];
      }
    } else {
      assert k < n - 1;
      assert prefix[k] == subs[k];
      assert CreatedIncreasing(prefix);
      CurrentIsLatest(prefix, userId, k);
      forall j | 0 <= j < |prefix| && prefix[j].userId == userId
        ensures prefix[j] == subs[j]
      {
      }
    }
  }

  /** getPaymentById finds every row by its AUTOINCREMENT key. */
  lemma {:induction false} PaymentByIdFindsRow(payments: seq<Payment>, k: nat)
    requires forall i, j :: 0 <= i < j < |payments| ==> payments[i].id < payments[j].id
    requires k < |payments|
    ensures PaymentById(payments, payments[k].id) == Some(payments[k])
  {
    if k > 0 {
      assert payments[0].id < payments[k].id;
      assert payments[1..][k - 1] == payments[k];
      PaymentByIdFindsRow(payments[1..], k - 1);
    }
  }

  /**
   * Status updates and the sweep never change which user owns which row, so
   * they never change a user's application count: the quota counts stopped
   * and expired applications exactly as it counts active ones.
   */
  lemma {:induction false} SameOwnersSameCount(a: seq<Application>, b: seq<Application>, userId: nat)
    requires |a| == |b|
    requires forall i :: 0 <= i < |a| ==> a[i].userId == b[i].userId
    ensures |ApplicationsOf(a, userId)| == |ApplicationsOf(b, userId)|
  {
    if |a| > 0 {
      SameOwnersSameCount(a[..|a| - 1], b[..|b| - 1], userId);
    }
  }

  /** Stopping, restarting or expiring an application frees no quota. */
  lemma QuotaIgnoresStatus(apps: seq<Application>, subs: seq<Subscription>, appId: int, status: AppStatus, userId: nat)
    ensures |ApplicationsOf(WithAppStatus(apps, appId, status), userId)| == |ApplicationsOf(apps, userId)|
    ensures |ApplicationsOf(CascadeExpire(apps, subs), userId)| == |ApplicationsOf(apps, userId)|
  {
    SameOwnersSameCount(WithAppStatus(apps, appId, status), apps, userId);
    SameOwnersSameCount(CascadeExpire(apps, subs), apps, userId);
  }

  /** A newly inserted application is the first of its owner's list (newest first). */
  lemma ApplicationsOfInsert(apps: seq<Application>, app: Application, userId: nat)
    ensures ApplicationsOf(apps + [app], userId)
         == (if app.userId == userId then [app] else []) + ApplicationsOf(apps, userId)
  {
    assert (apps + [app])[..|apps|] == apps;
  }

  /**
   * The first sweep statement: a row becomes expired exactly when it is
   * active with an end date before `now`; a NULL end date never expires;
   * no row becomes active and nothing but the status changes.
   */
  lemma ExpireOverdueRows(subs: seq<Subscription>, now: int)
    ensures |ExpireOverdue(subs, now)| == |subs|
    ensures forall i :: 0 <= i < |subs| ==>
      var after := ExpireOverdue(subs, now)[i];
      && after.(status := subs[i].status) == subs[i]
      && (after.status != subs[i].status <==> Overdue(subs[i], now))
      && (after.status != subs[i].status ==> after.status == SubExpired)
      && (subs[i].endDate.None? ==> after == subs[i])
  {
  }

  /**
   * The second sweep statement: an application becomes expired exactly when
   * it is active and its owner has SOME expired subscription row (current or
   * not); stopped and expired applications are untouched.
   */
  lemma CascadeExpireRows(apps: seq<Application>, subs: seq<Subscription>)
    ensures |CascadeExpire(apps, subs)| == |apps|
    ensures forall i :: 0 <= i < |apps| ==>
      var after := CascadeExpire(apps, subs)[i];
      && after.(status := apps[i].status) == apps[i]
      && (after.status != apps[i].status <==> apps[i].status == AppActive && HasExpiredSubscription(subs, apps[i].userId))
      && (after.status != apps[i].status ==> after.status == AppExpired)
      && (apps[i].status == AppStopped ==> after == apps[i])
  {
  }

  /** Running the sweep twice at the same time leaves the state of running it once. */
  lemma SweepIdempotent(subs: seq<Subscription>, apps: seq<Application>, now: int)
    ensures var subs1 := ExpireOverdue(subs, now);
            var apps1 := CascadeExpire(apps, subs1);
            ExpireOverdue(subs1, now) == subs1 && CascadeExpire(apps1, ExpireOverdue(subs1, now)) == apps1
  {
    var subs1 := ExpireOverdue(subs, now);
    var apps1 := CascadeExpire(apps, subs1);
    assert ExpireOverdue(subs1, now) == subs1;
    forall i | 0 <= i < |apps1|
      ensures CascadeExpire(apps1, subs1)[i] == apps1[i]
    {
      if apps1[i].status == AppActive {
        assert apps[i].status == AppActive;
        assert !HasExpiredSubscription(subs1, apps[i].userId);
      }
    }
  }

  /**
   * A user whose current subscription is active but who also has an older
   * expired row loses every active application to the sweep.
   */
  lemma StaleExpiredRowCascades(subs: seq<Subscription>, apps: seq<Application>, now: int, userId: nat, k: nat, i: nat)
    requires k < |subs| && subs[k].userId == userId && subs[k].status == SubExpired
    requires IsActive(CurrentSubscription(subs, userId))
    requires i < |apps| && apps[i].userId == userId && apps[i].status == AppActive
    ensures CascadeExpire(apps, ExpireOverdue(subs, now))[i].status == AppExpired
  {
    assert ExpireOverdue(subs, now)[k] == subs[k];
    assert subs[k] in ExpireOverdue(subs, now);
  }
}
