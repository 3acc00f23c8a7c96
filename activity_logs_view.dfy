/** The activity log list: the badge shown beside each action, and the line
    naming who did it. */
module ActivityLogsView {
  import opened Strings

  datatype Badge = CreatedBadge | UpdatedBadge | DeletedBadge | RawBadge(text: string)

  /** `getActionBadge`: the first of "created", "updated" and "deleted" found in
      the action (case-sensitive) chooses the badge; otherwise the action itself
      is shown. */
  function ActionBadge(action: string): (b: Badge)
    ensures b == CreatedBadge <==> Contains(action, "created")
    ensures b == UpdatedBadge <==> !Contains(action, "created") && Contains(action, "updated")
    ensures b == DeletedBadge <==>
              !Contains(action, "created") && !Contains(action, "updated") && Contains(action, "deleted")
    ensures b.RawBadge? ==> b.text == action
  {
    if Contains(action, "created") then CreatedBadge
    else if Contains(action, "updated") then UpdatedBadge
    else if Contains(action, "deleted") then DeletedBadge
    else RawBadge(action)
  }

  /** The match is case-sensitive: the fixture action "Route Created" gets the
      plain badge with its own text. */
  lemma RouteCreatedFallsThrough()
    ensures ActionBadge("Route Created") == RawBadge("Route Created")
  {
    RouteCreatedLacksCreated();
    RouteCreatedLacksUpdated();
    RouteCreatedLacksDeleted();
  }

  /** "Route Created" has no lower-case 'c', no 'p' and no 'l'. */
  lemma RouteCreatedLacksCreated()
    ensures !Contains("Route Created", "created")
  {
    MissingCharNotContained("Route Created", "created", 0);
  }

  lemma RouteCreatedLacksUpdated()
    ensures !Contains("Route Created", "updated")
  {
    MissingCharNotContained("Route Created", "updated", 1);
  }

  lemma RouteCreatedLacksDeleted()
    ensures !Contains("Route Created", "deleted")
  {
    MissingCharNotContained("Route Created", "deleted", 2);
  }

  /** The line under an action: "System" for an empty user, else "By <user>". */
  function UserLine(user: string): (line: string)
    ensures user == "" ==> line == "System"
    ensures user != "" ==> |line| == |user| + 3 && line[..3] == "By " && line[3..] == user
  {
    if user == "" then "System" else "By " + user
  }

  /** Different users give different lines, and no user's line reads "System". */
  lemma UserLineInjective(u1: string, u2: string)
    ensures UserLine(u1) == UserLine(u2) ==> u1 == u2
    ensures u1 != "" ==> UserLine(u1) != "System"
  {
    if u1 != "" {
      assert UserLine(u1)[0] == 'B';
    }
    if u2 != "" {
      assert UserLine(u2)[0] == 'B';
    }
  }
}
