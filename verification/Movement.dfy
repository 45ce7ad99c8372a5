// How far and which way a simulation step takes a player.
module Movement {
  import opened Geometry
  import opened Common
  import opened World
  import opened AoiModel

  // distance is what a player walks in a step, diagonal the square root of two,
  // and scale the metres in a degree of longitude at a latitude.
  datatype Pace = Pace(distance: real, diagonal: real, scale: real -> real) {
    ghost predicate Sound() {
      0.0 < distance && 0.0 < diagonal && diagonal * diagonal == 2.0
    }
  }

  // One key less its opposite.
  function Key(towards: bool, away: bool): real {
    (if towards then 1.0 else 0.0) - (if away then 1.0 else 0.0)
  }

  function Length(pace: Pace, x: real, y: real): real {
    if x != 0.0 && y != 0.0 then pace.diagonal else 1.0
  }

  // The part of the way walked along one axis.
  function Share(pace: Pace, along: real, across: real): real
    requires pace.Sound()
  {
    along / Length(pace, along, across) * pace.distance
  }

  function LatitudeAfter(pace: Pace, at: LatLng, input: InputState): real
    requires pace.Sound()
  {
    at.lat + Share(pace, Key(input.up, input.down), Key(input.right, input.left)) / METERS_PER_DEGREE_LATITUDE
  }

  // The longitude is scaled at the latitude the player has already moved to.
  function Walked(pace: Pace, at: LatLng, input: InputState): LatLng
    requires pace.Sound() && pace.scale(LatitudeAfter(pace, at, input)) != 0.0
  {
    var lat := LatitudeAfter(pace, at, input);
    LatLng(lat, at.lng + Share(pace, Key(input.right, input.left), Key(input.up, input.down)) / pace.scale(lat))
  }

  // The metres from one place to the next, north and east, as a step counts them.
  function Metres(pace: Pace, from: LatLng, to: LatLng): Point {
    Point((to.lng - from.lng) * pace.scale(to.lat), (to.lat - from.lat) * METERS_PER_DEGREE_LATITUDE)
  }

  lemma DivideBack(from: real, share: real, scale: real)
    requires scale != 0.0
    ensures (from + share / scale - from) * scale == share
  {
  }

  lemma MetresWalked(pace: Pace, at: LatLng, input: InputState)
    requires pace.Sound() && pace.scale(LatitudeAfter(pace, at, input)) != 0.0
    ensures var x, y := Key(input.right, input.left), Key(input.up, input.down);
      Metres(pace, at, Walked(pace, at, input)) == Point(Share(pace, x, y), Share(pace, y, x))
  {
    var x, y := Key(input.right, input.left), Key(input.up, input.down);
    DivideBack(at.lat, Share(pace, y, x), METERS_PER_DEGREE_LATITUDE);
    DivideBack(at.lng, Share(pace, x, y), pace.scale(LatitudeAfter(pace, at, input)));
  }

  // A share has the sign of its keys; alone it is the whole way, and two are
  // equally long and square to the whole together.
  lemma ShareSquared(pace: Pace, along: real, across: real)
    requires pace.Sound() && along in {-1.0, 0.0, 1.0} && across in {-1.0, 0.0, 1.0}
    ensures (Share(pace, along, across) > 0.0 <==> along > 0.0) && (Share(pace, along, across) < 0.0 <==> along < 0.0)
    ensures Square(Share(pace, along, across)) * (if along != 0.0 && across != 0.0 then 2.0 else 1.0)
         == Square(along) * Square(pace.distance)
  {
    var l, d := Length(pace, along, across), pace.distance;
    if along == 0.0 {
      assert Share(pace, along, across) == 0.0;
    } else {
      var part := d / l;
      assert part * l == d;
      PositiveQuotient(d, l);
      assert Share(pace, along, across) == along * part;
      assert (part * l) * (part * l) == (part * part) * (l * l);
    }
  }

  lemma PositiveQuotient(a: real, b: real)
    requires 0.0 < a && 0.0 < b
    ensures 0.0 < a / b
  {
  }

  // Whatever keys are pressed, a player that walks covers the distance of a
  // step, towards the sides whose keys are pressed without their opposites.
  lemma WalksItsDistance(pace: Pace, at: LatLng, input: InputState)
    requires pace.Sound() && pace.scale(LatitudeAfter(pace, at, input)) != 0.0 && !input.Idle()
    ensures var m := Metres(pace, at, Walked(pace, at, input));
      && Square(m.x) + Square(m.y) == Square(pace.distance)
      && (m.x > 0.0 <==> input.right && !input.left) && (m.x < 0.0 <==> input.left && !input.right)
      && (m.y > 0.0 <==> input.up && !input.down) && (m.y < 0.0 <==> input.down && !input.up)
      && (m.x != 0.0 && m.y != 0.0 ==> Square(m.x) == Square(m.y))
  {
    var x, y := Key(input.right, input.left), Key(input.up, input.down);
    MetresWalked(pace, at, input);
    ShareSquared(pace, x, y);
    ShareSquared(pace, y, x);
  }

  // Where a step takes each player, as long as it stays off the poles.
  function Places(w: WorldState, pace: Pace): PlayerId -> LatLng
    requires pace.Sound()
  {
    (p: PlayerId) =>
      if p in w.players && pace.scale(LatitudeAfter(pace, w.players[p].at, w.players[p].input)) != 0.0
      then Walked(pace, w.players[p].at, w.players[p].input) else LatLng(0.0, 0.0)
  }

  // A step takes everybody whose keys do not cancel the same distance their own
  // way and leaves everybody else where they are.
  lemma StepWalks(w: WorldState, pace: Pace, p: PlayerId)
    requires pace.Sound() && p in w.players
    requires pace.scale(LatitudeAfter(pace, w.players[p].at, w.players[p].input)) != 0.0
    ensures var t := Stepped(w, Places(w, pace));
      && p in t.players && t.players[p] == w.players[p].(at := t.players[p].at)
      && var m, input := Metres(pace, w.players[p].at, t.players[p].at), w.players[p].input;
      && (input.Idle() ==> t.players[p].at == w.players[p].at)
      && (!input.Idle() ==> Square(m.x) + Square(m.y) == Square(pace.distance))
      && (m.x > 0.0 <==> input.right && !input.left) && (m.x < 0.0 <==> input.left && !input.right)
      && (m.y > 0.0 <==> input.up && !input.down) && (m.y < 0.0 <==> input.down && !input.up)
  {
    hide Square, Walked;
    if !w.players[p].input.Idle() {
      WalksItsDistance(pace, w.players[p].at, w.players[p].input);
    }
  }
}
