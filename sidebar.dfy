/** The landlord sidebar: which link is highlighted for the current path, and the count badges. */
module Sidebar {
  import opened Wrappers
  import opened Text

  /** `isActive(path)`: the current path is the link's path or lies below it. */
  predicate IsActive(pathname: string, path: string) {
    pathname == path || StartsWith(pathname, path + "/")
  }

  /** Every page below a link's path highlights it. */
  lemma BelowIsActive(path: string, rest: string)
    ensures IsActive(path + "/" + rest, path)
  {
    assert (path + "/" + rest)[..|path + "/"|] == path + "/";
  }

  /** A sibling path that merely extends the link's name (as `/landlord/tasksX` extends `/landlord/tasks`) does not highlight it. */
  lemma SiblingNotActive(path: string, suffix: string)
    requires suffix != [] && suffix[0] != '/'
    ensures !IsActive(path + suffix, path)
  {
    assert (path + suffix)[|path|] == suffix[0];
  }

  /** Two links are highlighted together only when one path lies below the other. */
  lemma {:induction false} ActiveLinksNested(pathname: string, p: string, q: string)
    requires IsActive(pathname, p) && IsActive(pathname, q)
    ensures p == q || StartsWith(p, q + "/") || StartsWith(q, p + "/")
  {
    if |p| == |q| {
      assert p == pathname[..|p|];
      assert q == pathname[..|q|];
    } else if |p| < |q| {
      assert StartsWith(pathname, p + "/");
      assert q == pathname[..|q|];
      assert q[..|p + "/"|] == pathname[..|p + "/"|];
    } else {
      assert StartsWith(pathname, q + "/");
      assert p == pathname[..|p|];
      assert p[..|q + "/"|] == pathname[..|q + "/"|];
    }
  }

  /** `count || 0` on the number of new inquiries: a missing count or 0 reads 0. */
  function InquiryCount(count: Option<int>): (r: int)
    ensures count.None? ==> r == 0
    ensures count.Some? ==> r == count.value
  {
    match count
    case None => 0
    case Some(c) => if c != 0 then c else 0
  }

  /** A badge is drawn when one is given and it is positive. */
  predicate BadgeShown(badge: Option<int>) {
    badge.Some? && badge.value > 0
  }

  datatype NavItem = NavItem(title: string, href: string, badge: Option<int>)

  /** The links, in order, given the current inquiry count. */
  function NavItems(inquiries: int): (r: seq<NavItem>)
    ensures |r| == 13
    ensures forall i :: 0 <= i < |r| && i != 5 && i != 8 ==> r[i].badge == None
  {
    [ NavItem("Dashboard", "/landlord/dashboard", None),
      NavItem("Properties", "/landlord/properties", None),
      NavItem("Listings", "/landlord/listings", None),
      NavItem("Unit Map", "/landlord/unit-map", None),
      NavItem("Tenants", "/landlord/tenants", None),
      NavItem("Requests", "/landlord/inquiries", Some(inquiries)),
      NavItem("Maintenance", "/landlord/maintenance", None),
      NavItem("Statistics", "/landlord/statistics", None),
      NavItem("Invoices", "/landlord/invoices", Some(1)),
      NavItem("To Do List", "/landlord/tasks", None),
      NavItem("Finances", "/landlord/finances", None),
      NavItem("Help & Center", "/landlord/help", None),
      NavItem("Settings", "/landlord/settings", None) ]
  }

  /** The invoices badge always shows; the requests badge shows exactly when there are new inquiries; no other link has one. */
  lemma BadgesShown(inquiries: int)
    ensures BadgeShown(NavItems(inquiries)[8].badge)
    ensures BadgeShown(NavItems(inquiries)[5].badge) <==> inquiries > 0
    ensures forall i :: 0 <= i < 13 && i != 5 && i != 8 ==> !BadgeShown(NavItems(inquiries)[i].badge)
  {
  }

  class InquiryBadge {
    var newInquiriesCount: int

    constructor ()
      ensures newInquiriesCount == 0
    {
      newInquiriesCount := 0;
    }

    /**
     * One run of `fetchNewInquiriesCount`: without a signed-in user, or when the
     * fetch throws, the count is kept; otherwise it becomes the returned count,
     * 0 when there is none.
     */
    method Poll(signedIn: bool, threw: bool, count: Option<int>)
      modifies this
      ensures !signedIn || threw ==> newInquiriesCount == old(newInquiriesCount)
      ensures signedIn && !threw ==> newInquiriesCount == InquiryCount(count)
      ensures old(newInquiriesCount) >= 0 && (count.Some? ==> count.value >= 0) ==> newInquiriesCount >= 0
    {
      if !signedIn || threw {
        return;
      }
      newInquiriesCount := InquiryCount(count);
    }
  }
}
