/**
 * The sidebar's main navigation (`sidebar/app-sidebar.tsx`): three fixed entries, each marked
 * active by a rule over the current path.
 */
module AppSidebar {
  import opened Text

  datatype NavItem = NavItem(title: string, url: string, isActive: bool)

  const DashboardUrl: string := "/dashboard"
  const TopicUrl: string := "/topic"
  const GoalUrl: string := "/goal"

  /** `navMain` for the path `pathname`. */
  function NavMain(pathname: string): (r: seq<NavItem>)
    ensures |r| == 3
    ensures r[0].title == "Dashboard" && r[0].url == DashboardUrl
    ensures r[1].title == "Topics" && r[1].url == TopicUrl
    ensures r[2].title == "Goal" && r[2].url == GoalUrl
  {
    [ NavItem("Dashboard", DashboardUrl, pathname == DashboardUrl),
      NavItem("Topics", TopicUrl, StartsWith(pathname, TopicUrl)),
      NavItem("Goal", GoalUrl, pathname == GoalUrl) ]
  }

  /**
   * Dashboard and Goal are active exactly on their own path, Topics on every path under
   * "/topic" (including "/topics" and "/topic/x"), and no path marks two entries.
   */
  lemma ActiveRules(pathname: string)
    ensures NavMain(pathname)[0].isActive <==> pathname == DashboardUrl
    ensures NavMain(pathname)[1].isActive <==> |pathname| >= 6 && pathname[..6] == TopicUrl
    ensures NavMain(pathname)[2].isActive <==> pathname == GoalUrl
    ensures forall i, j | 0 <= i < j < 3 :: !(NavMain(pathname)[i].isActive && NavMain(pathname)[j].isActive)
  {
    var nav := NavMain(pathname);
    if nav[1].isActive {
      assert pathname[1] == 't';
      assert pathname != DashboardUrl by { assert DashboardUrl[1] == 'd'; }
      assert pathname != GoalUrl by { assert GoalUrl[1] == 'g'; }
    }
  }

  /** The set of active entries has at most one member, for every path. */
  lemma AtMostOneActive(pathname: string)
    ensures |set i | 0 <= i < 3 && NavMain(pathname)[i].isActive| <= 1
  {
    ActiveRules(pathname);
    var active := set i | 0 <= i < 3 && NavMain(pathname)[i].isActive;
    var nav := NavMain(pathname);
    if nav[0].isActive {
      assert active == {0};
    } else if nav[1].isActive {
      assert active == {1};
    } else if nav[2].isActive {
      assert active == {2};
    } else {
      assert active == {};
    }
  }
}
