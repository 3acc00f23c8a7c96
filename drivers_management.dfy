/** The drivers management page: the efficiency colour, the avatar initials and
    the "Add Driver" form. */
module DriversManagement {
  import opened Options
  import opened Strings
  import opened StatusColors

  datatype DriverStatus = Available | OnRoute | OffDuty

  /** A driver record; `lastActive` is milliseconds since the epoch. */
  datatype Driver = Driver(
    id: string,
    name: string,
    email: string,
    phone: string,
    status: DriverStatus,
    currentRoute: Option<string>,
    totalRoutes: int,
    completedRoutes: int,
    totalCollections: int,
    efficiency: int,
    lastActive: int)

  /** The fields the "Add Driver" form hands over (everything but the id and the tallies). */
  datatype DriverData = DriverData(
    name: string,
    email: string,
    phone: string,
    status: DriverStatus,
    currentRoute: Option<string>,
    lastActive: int)

  /** The colour class of an efficiency percentage. */
  function EfficiencyColor(efficiency: int): (color: string)
    ensures color == Emerald <==> efficiency >= 95
    ensures color == Yellow <==> 85 <= efficiency < 95
    ensures color == Red <==> efficiency < 85
  {
    if efficiency >= 95 then Emerald
    else if efficiency >= 85 then Yellow
    else Red
  }

  /** Higher efficiency never shows a worse colour. */
  lemma EfficiencyColorMonotone(a: int, b: int)
    requires a <= b
    ensures ColorRank(EfficiencyColor(a)) <= ColorRank(EfficiencyColor(b))
  {
  }

  /** `pieces.map(n => n[0]).join('')`: the first character of each piece; an
      empty piece yields `undefined`, which `join` renders as nothing. */
  function FirstChars(pieces: seq<string>): string
    decreases |pieces|
  {
    if pieces == [] then ""
    else (if pieces[0] == "" then "" else [pieces[0][0]]) + FirstChars(pieces[1..])
  }

  /** The avatar text: `name.split(' ').map(n => n[0]).join('')`. */
  function Initials(name: string): (r: string)
    ensures ' ' !in r
    ensures |r| <= |name|
  {
    var pieces := Split(name, ' ');
    InitialsBound(pieces, name);
    FirstChars(pieces)
  }

  /** A single word contributes its first letter, or nothing when it is empty. */
  lemma InitialsOneWord(word: string)
    requires ' ' !in word
    ensures Initials(word) == (if word == "" then "" else [word[0]])
  {
    SplitNoSeparator(word, ' ');
    assert FirstChars([word]) == (if word == "" then "" else [word[0]]) + FirstChars([]);
  }

  /** A word in front of a space contributes its first letter (nothing when
      empty) ahead of the initials of the rest: together with
      `InitialsOneWord` this determines the initials of every name. */
  lemma InitialsNextWord(word: string, rest: string)
    requires ' ' !in word
    ensures Initials(word + " " + rest) == (if word == "" then "" else [word[0]]) + Initials(rest)
  {
    SplitFirstWord(word, rest, ' ');
    var pieces := [word] + Split(rest, ' ');
    assert pieces[1..] == Split(rest, ' ');
  }

  /** The initials never outnumber the characters of the name, and hold no spaces. */
  lemma {:induction false} InitialsBound(pieces: seq<string>, name: string)
    requires pieces == Split(name, ' ')
    ensures |FirstChars(pieces)| <= |name|
    ensures ' ' !in FirstChars(pieces)
    decreases |name|
  {
    if name != [] {
      var rest := Split(name[1..], ' ');
      InitialsBound(rest, name[1..]);
      if name[0] == ' ' {
        assert pieces == [""] + rest;
        assert pieces[1..] == rest;
      } else {
        assert pieces == [[name[0]] + rest[0]] + rest[1..];
        assert pieces[1..] == rest[1..];
        assert FirstChars(rest) == (if rest[0] == "" then "" else [rest[0][0]]) + FirstChars(rest[1..]);
      }
    }
  }

  /** A new driver: the form data under a fresh `driver-` id with all tallies at zero. */
  function NewDriver(data: DriverData, now: nat): (d: Driver)
    ensures d.id == "driver-" + NatToString(now)
    ensures d.totalRoutes == 0 && d.completedRoutes == 0 && d.totalCollections == 0 && d.efficiency == 0
    ensures d.name == data.name && d.email == data.email && d.phone == data.phone
    ensures d.status == data.status && d.currentRoute == data.currentRoute && d.lastActive == data.lastActive
  {
    Driver("driver-" + NatToString(now), data.name, data.email, data.phone, data.status,
           data.currentRoute, 0, 0, 0, 0, data.lastActive)
  }

  /** A new driver shows the red efficiency colour until a tally is recorded. */
  lemma NewDriverShowsRed(data: DriverData, now: nat)
    ensures EfficiencyColor(NewDriver(data, now).efficiency) == Red
  {
  }

  class DriversManagementState {
    var drivers: seq<Driver>
    var dialogOpen: bool

    constructor (initialDrivers: seq<Driver>)
      ensures drivers == initialDrivers && !dialogOpen
    {
      drivers := initialDrivers;
      dialogOpen := false;
    }

    /** Add a driver: it goes last, the existing drivers stay, and the dialog closes. */
    method AddDriver(data: DriverData, now: nat)
      modifies this
      ensures drivers == old(drivers) + [NewDriver(data, now)]
      ensures |drivers| == |old(drivers)| + 1 && drivers[..|old(drivers)|] == old(drivers)
      ensures !dialogOpen
    {
      drivers := drivers + [NewDriver(data, now)];
      dialogOpen := false;
    }
  }
}
