/**
 * create_ports (Basegame_3-4_WithPorts.py:184-205): pair the nine harbour
 * triangles with the colours of the global `color_list` (line 34), popping both
 * lists from the end.
 *
 * The triangles are opaque values of type P (their coordinates only matter to
 * the drawing). random.shuffle, called once per iteration in "random" mode, is
 * the parameter `shuffle`: call i may return any reordering of its argument.
 */
module Ports {
  import opened Board

  /** `color_list`: four plain harbours and one per resource, wheat, ore, sheep, brick, wood. */
  const PortColors: seq<Color> := [White, Straw, Slate, White, LeafGreen, White, White, Clay, ForestGreen]

  /** The harbour colours: four plain (white) harbours and one for each resource but the desert. */
  lemma PortColorsBag()
    ensures |PortColors| == 9
    ensures multiset(PortColors) == multiset{White, White, White, White, Straw, Slate, LeafGreen, Clay, ForestGreen}
  {
  }

  /**
   * Placed: every triangle got a colour. ColorUnbound: the mode is neither
   * "random" nor "standard", so line 204 reads an unbound `color`.
   * ColorListEmpty: `color_list.pop()` on an empty list.
   */
  datatype PortsOutcome = Placed | ColorUnbound | ColorListEmpty

  predicate KnownMode(mode: string)
  {
    mode == "random" || mode == "standard"
  }

  /** The colours of the drawn harbours, in drawing order. */
  function Colors<P>(ports: seq<(P, Color)>): (colors: seq<Color>)
    ensures |colors| == |ports| && forall k :: 0 <= k < |ports| ==> colors[k] == ports[k].1
  {
    seq(|ports|, k requires 0 <= k < |ports| => ports[k].1)
  }

  /**
   * The loop of create_ports. `ports` lists the (triangle, colour) pairs in the
   * order they are drawn and `colorsLeft` is `color_list` afterwards. The
   * triangles are drawn last first. In "standard" mode triangle i gets colour
   * i; in "random" mode the drawn colours and those left over are exactly the
   * colours of the list; an unknown mode fails before anything is popped.
   */
  method CreatePorts<P>(mode: string, points: seq<P>, colorList: seq<Color>, shuffle: (nat, seq<Color>) -> seq<Color>)
    returns (outcome: PortsOutcome, ports: seq<(P, Color)>, colorsLeft: seq<Color>)
    requires forall i, s :: multiset(shuffle(i, s)) == multiset(s)
    ensures |ports| <= |points| && forall k :: 0 <= k < |ports| ==> ports[k].0 == points[|points| - 1 - k]
    ensures outcome == ColorUnbound <==> |points| > 0 && !KnownMode(mode)
    ensures outcome == ColorUnbound ==> ports == [] && colorsLeft == colorList
    ensures outcome == ColorListEmpty <==> KnownMode(mode) && |colorList| < |points|
    ensures outcome == ColorListEmpty ==> |ports| == |colorList| && colorsLeft == []
    ensures outcome == Placed ==> |ports| == |points| && |colorsLeft| == |colorList| - |points|
    ensures multiset(Colors(ports)) + multiset(colorsLeft) == multiset(colorList)
    ensures mode == "standard" ==>
      colorsLeft == colorList[..|colorList| - |ports|] &&
      forall k :: 0 <= k < |ports| ==> ports[k].1 == colorList[|colorList| - 1 - k]
    ensures mode == "standard" && |colorList| == |points| ==>
      outcome == Placed && forall i :: 0 <= i < |points| ==> ports[|points| - 1 - i] == (points[i], colorList[i])
  {
    var random, standard := mode == "random", mode == "standard";
    ports, colorsLeft := [], colorList;
    var remaining := points;
    while remaining != []
      invariant Drawing(points, colorList, random, standard, remaining, ports, colorsLeft)
    {
      var shuffled := colorsLeft;
      if random {
        shuffled := shuffle(|ports|, colorsLeft);
      } else if !standard {
        return ColorUnbound, ports, colorsLeft;
      }
      var port := remaining[|remaining| - 1];
      if shuffled == [] {
        ShuffledLength(colorsLeft, shuffled);
        return ColorListEmpty, ports, shuffled;
      }
      var color := shuffled[|shuffled| - 1];
      DrawPort(points, colorList, random, standard, remaining, ports, colorsLeft, shuffled);
      remaining, ports, colorsLeft := remaining[..|remaining| - 1], ports + [(port, color)], shuffled[..|shuffled| - 1];
    }
    outcome := Placed;
  }

  /**
   * The loop invariant of create_ports: `remaining` is what is left of `points`
   * and the drawn triangles are the rest, last first; the drawn and the
   * leftover colours make up the colour list, and in "standard" mode they are
   * its suffix (reversed) and its prefix.
   */
  ghost predicate Drawing<P>(points: seq<P>, colorList: seq<Color>, random: bool, standard: bool,
                             remaining: seq<P>, ports: seq<(P, Color)>, colorsLeft: seq<Color>)
  {
    |remaining| + |ports| == |points| && remaining == points[..|remaining|] &&
    (forall k :: 0 <= k < |ports| ==> ports[k].0 == points[|points| - 1 - k]) &&
    |colorsLeft| + |ports| == |colorList| &&
    multiset(Colors(ports)) + multiset(colorsLeft) == multiset(colorList) &&
    (standard ==> colorsLeft == colorList[..|colorList| - |ports|]) &&
    (standard ==> forall k :: 0 <= k < |ports| ==> ports[k].1 == colorList[|colorList| - 1 - k]) &&
    (ports != [] ==> random || standard) &&
    (ports == [] ==> colorsLeft == colorList)
  }

  /** A shuffle keeps the length of the list. */
  lemma ShuffledLength(colors: seq<Color>, shuffled: seq<Color>)
    requires multiset(shuffled) == multiset(colors)
    ensures |shuffled| == |colors|
  {
    assert |shuffled| == |multiset(shuffled)|;
  }

  /** One iteration: pop a triangle and the last colour of the (possibly reshuffled) list. */
  lemma DrawPort<P>(points: seq<P>, colorList: seq<Color>, random: bool, standard: bool,
                    remaining: seq<P>, ports: seq<(P, Color)>, colorsLeft: seq<Color>, shuffled: seq<Color>)
    requires Drawing(points, colorList, random, standard, remaining, ports, colorsLeft)
    requires random != standard && (standard ==> shuffled == colorsLeft)
    requires multiset(shuffled) == multiset(colorsLeft)
    requires remaining != [] && shuffled != []
    ensures Drawing(points, colorList, random, standard, remaining[..|remaining| - 1],
                    ports + [(remaining[|remaining| - 1], shuffled[|shuffled| - 1])], shuffled[..|shuffled| - 1])
  {
    ShuffledLength(colorsLeft, shuffled);
    var color := shuffled[|shuffled| - 1];
    PopLast(Colors(ports), shuffled);
    assert Colors(ports + [(remaining[|remaining| - 1], color)]) == Colors(ports) + [color];
  }

  /** Moving the last colour of the list to the drawn colours keeps the bag of colours. */
  lemma PopLast(drawn: seq<Color>, left: seq<Color>)
    requires left != []
    ensures multiset(drawn + [left[|left| - 1]]) + multiset(left[..|left| - 1]) == multiset(drawn) + multiset(left)
  {
    assert left == left[..|left| - 1] + [left[|left| - 1]];
  }

  /**
   * main's `create_ports(user_input)`: the nine triangles of lines 186-194
   * against `color_list`. In either known mode all nine are placed and the
   * list is used up, four plain harbours and one per resource; in "standard"
   * mode triangle i takes colour i; any other answer fails at the first
   * triangle.
   */
  method Harbours<P>(mode: string, points: seq<P>, shuffle: (nat, seq<Color>) -> seq<Color>)
    returns (outcome: PortsOutcome, ports: seq<(P, Color)>, colorsLeft: seq<Color>)
    requires |points| == 9
    requires forall i, s :: multiset(shuffle(i, s)) == multiset(s)
    ensures KnownMode(mode) <==> outcome == Placed
    ensures !KnownMode(mode) ==> outcome == ColorUnbound && ports == []
    ensures |ports| <= 9 && forall k :: 0 <= k < |ports| ==> ports[k].0 == points[|points| - 1 - k]
    ensures KnownMode(mode) ==> |ports| == 9 && colorsLeft == []
    ensures KnownMode(mode) ==>
      multiset(Colors(ports)) == multiset{White, White, White, White, Straw, Slate, LeafGreen, Clay, ForestGreen}
    ensures mode == "standard" ==> forall i :: 0 <= i < |points| ==> ports[|points| - 1 - i] == (points[i], PortColors[i])
  {
    PortColorsBag();
    var colorList := PortColors;
    outcome, ports, colorsLeft := CreatePorts(mode, points, colorList, shuffle);
    if KnownMode(mode) {
      UsedUp(Colors(ports), colorsLeft, colorList);
    }
  }

  /** Once every colour is drawn, the drawn colours are the whole list. */
  lemma UsedUp(drawn: seq<Color>, left: seq<Color>, colorList: seq<Color>)
    requires multiset(drawn) + multiset(left) == multiset(colorList)
    requires |left| == 0
    ensures multiset(drawn) == multiset(colorList)
  {
  }
}
