/**
 The entity-domain filter of the event stream. Home Assistant entity ids look like
 "sensor.geyser_pct"; the domain is the part before the first '.', and the whole id when
 there is no '.'. The stream computes it as TrimSuffix(SplitAfter(id, ".")[0], ".").
 */
module Entity {

  const SENSOR_DOMAIN := "sensor"
  const STATE_CHANGED := "state_changed"

  /**
   `strings.SplitAfter(s, ".")[0]`: s up to and including its first '.', or all of s when it
   has none (SplitAfter always yields at least one piece, so the index never fails).
   */
  function FirstSplitAfterDot(s: string): (p: string)
    ensures p <= s
    ensures p == [] || '.' !in p[..|p| - 1]
    ensures '.' in s ==> |p| >= 1 && p[|p| - 1] == '.'
    ensures '.' !in s ==> p == s
  {
    if s == [] then []
    else if s[0] == '.' then [s[0]]
    else [s[0]] + FirstSplitAfterDot(s[1..])
  }

  /** `strings.TrimSuffix(s, suffix)`: s without suffix when it ends with it, else s. */
  function TrimSuffix(s: string, suffix: string): (r: string)
    ensures r <= s
    ensures |suffix| <= |s| && s[|s| - |suffix|..] == suffix ==> r + suffix == s
    ensures !(|suffix| <= |s| && s[|s| - |suffix|..] == suffix) ==> r == s
  {
    if |suffix| <= |s| && s[|s| - |suffix|..] == suffix then s[..|s| - |suffix|] else s
  }

  /** The domain of an entity id, computed as the stream filter computes it. */
  function Domain(id: string): (d: string)
    ensures d <= id && '.' !in d
  {
    TrimSuffix(FirstSplitAfterDot(id), ".")
  }

  /**
   Domain(id) is exactly the prefix before the first '.': a prefix of id without '.', followed
   in id by a '.' or by the end of id. Any prefix with that property is the domain.
   */
  lemma {:induction false} DomainIsPrefixBeforeFirstDot(id: string, d: string)
    ensures Domain(id) <= id
    ensures '.' !in Domain(id)
    ensures |Domain(id)| == |id| || id[|Domain(id)|] == '.'
    ensures (d <= id && '.' !in d && (|d| == |id| || id[|d|] == '.')) <==> d == Domain(id)
  {
    var p := FirstSplitAfterDot(id);
    var dom := Domain(id);
    if '.' in id {
      assert p[|p| - 1..] == ".";
      assert dom == p[..|p| - 1];
      assert |p| - 1 < |id| && id[|p| - 1] == '.';
    } else {
      assert p == id;
      if |p| >= 1 {
        assert p[|p| - 1] != '.';
        assert p[|p| - 1..] != ".";
      }
      assert dom == id;
    }
    if d <= id && '.' !in d && (|d| == |id| || id[|d|] == '.') {
      assert forall i :: 0 <= i < |dom| ==> id[i] == dom[i] && id[i] != '.';
      assert forall i :: 0 <= i < |d| ==> id[i] == d[i] && id[i] != '.';
      assert |d| == |dom|;
      assert d == id[..|d|] && dom == id[..|dom|];
    }
  }

  /** The domain filter admits exactly the id "sensor" and the ids that start with "sensor.". */
  lemma {:induction false} IsSensorDomain(id: string)
    ensures Domain(id) == SENSOR_DOMAIN <==> id == SENSOR_DOMAIN || SENSOR_DOMAIN + "." <= id
  {
    var sensor := SENSOR_DOMAIN;
    var n := |sensor|;
    DomainIsPrefixBeforeFirstDot(id, sensor);
    if Domain(id) == sensor {
      assert sensor <= id;
      if |id| > n {
        assert id[n] == '.';
        assert id[..n + 1] == id[..n] + [id[n]];
      } else {
        assert id == sensor;
      }
    }
    if sensor + "." <= id {
      assert id[..n] == (sensor + ".")[..n];
      assert sensor <= id;
      assert id[n] == (sensor + ".")[n];
    }
  }

  /** The stream's filter: a state_changed event of an entity in the sensor domain. */
  predicate IsSensorStateChange(eventType: string, entityId: string)
    ensures IsSensorStateChange(eventType, entityId) <==>
      eventType == STATE_CHANGED && (entityId == SENSOR_DOMAIN || SENSOR_DOMAIN + "." <= entityId)
  {
    IsSensorDomain(entityId);
    eventType == STATE_CHANGED && Domain(entityId) == SENSOR_DOMAIN
  }
}
