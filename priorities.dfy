/** `get_service_priority`: the service type, case-folded, looked up in a fixed table. */
module Priorities {
  import opened Text

  datatype Priority = High | Medium | Low
  {
    /** The text the payload carries: `'HIGH'`, `'MEDIUM'` or `'LOW'`. */
    function Name(): (name: string)
      ensures name == "HIGH" <==> this == High
      ensures name == "MEDIUM" <==> this == Medium
      ensures name == "LOW" <==> this == Low
    {
      match this
      case High => "HIGH"
      case Medium => "MEDIUM"
      case Low => "LOW"
    }
  }

  /** The three service types the handler knows, keyed in lower case. */
  const PriorityMap: map<string, Priority> :=
    map["repair" := High, "maintenance" := Medium, "training" := Low]

  /**
   * Total: every string gets a priority. Repair is urgent, training is not,
   * and maintenance or anything unrecognised falls back to medium.
   */
  function ServicePriority(serviceType: string): (p: Priority)
    ensures p == High <==> Lower(serviceType) == "repair"
    ensures p == Low <==> Lower(serviceType) == "training"
    ensures p == Medium <==> Lower(serviceType) != "repair" && Lower(serviceType) != "training"
  {
    var key := Lower(serviceType);
    if key in PriorityMap then PriorityMap[key] else Medium
  }

  /** Only the case-folded text matters. */
  lemma PriorityIgnoresCase(a: string, b: string)
    requires Lower(a) == Lower(b)
    ensures ServicePriority(a) == ServicePriority(b)
  {
  }

  /** The upper-cased service type the payload carries classifies as the one submitted. */
  lemma PriorityOfUpper(serviceType: string)
    ensures ServicePriority(Upper(serviceType)) == ServicePriority(serviceType)
  {
    LowerOfUpper(serviceType);
  }

  /**
   * The table's three entries, and every key of the table looked up as it is:
   * its keys are already in lower case.
   */
  lemma PriorityTable()
    ensures ServicePriority("repair") == High
    ensures ServicePriority("maintenance") == Medium
    ensures ServicePriority("training") == Low
    ensures forall k | k in PriorityMap :: ServicePriority(k) == PriorityMap[k]
  {
    TableKeys();
    TableEntry("repair");
    TableEntry("maintenance");
    TableEntry("training");
  }

  /** Each of the three lower-case keys is classified as its entry, without going through the map. */
  lemma TableEntry(k: string)
    requires k == "repair" || k == "maintenance" || k == "training"
    ensures k == "repair" ==> ServicePriority(k) == High
    ensures k == "maintenance" ==> ServicePriority(k) == Medium
    ensures k == "training" ==> ServicePriority(k) == Low
  {
    if k == "repair" {
      LowerOfLowerCase("repair");
    } else if k == "maintenance" {
      LowerOfLowerCase("maintenance");
    } else {
      LowerOfLowerCase("training");
    }
  }

  /** Every key of the table is classified as its entry. */
  lemma TableKeys()
    ensures forall k | k in PriorityMap :: ServicePriority(k) == PriorityMap[k]
  {
    forall k | k in PriorityMap ensures ServicePriority(k) == PriorityMap[k] {
      TableKey(k);
    }
  }

  /** One key of the table is classified as its entry. */
  lemma TableKey(k: string)
    requires k in PriorityMap
    ensures ServicePriority(k) == PriorityMap[k]
  {
    TableEntry(k);
  }

  /** Text already in lower case is its own case-folding. */
  lemma LowerOfLowerCase(s: string)
    requires forall i :: 0 <= i < |s| ==> !('A' <= s[i] <= 'Z')
    ensures Lower(s) == s
  {
  }

  /** Shouting the service type does not change its priority. */
  lemma ShoutedRepairIsHigh()
    ensures ServicePriority("REPAIR") == High
  {
    var key := Lower("REPAIR");
    assert key == "repair" by {
      assert key[0] == 'r' && key[1] == 'e' && key[2] == 'p';
      assert key[3] == 'a' && key[4] == 'i' && key[5] == 'r';
    }
  }

  /** Mixed case is folded before the lookup. */
  lemma MixedCaseTrainingIsLow()
    ensures ServicePriority("Training") == Low
  {
    var key := Lower("Training");
    assert key == "training" by {
      assert key[0] == 't';
      LowerOfLowerCase("raining");
      assert "Training"[1..] == "raining";
    }
  }

  /** A service type outside the table is not rejected: it is medium. */
  lemma UnknownTypeIsMedium(serviceType: string)
    requires Lower(serviceType) !in PriorityMap
    ensures ServicePriority(serviceType) == Medium
  {
  }

  /** `inspection`, for one, is not in the table. */
  lemma InspectionIsMedium()
    ensures ServicePriority("inspection") == Medium
  {
    assert Lower("inspection")[0] == 'i';
    UnknownTypeIsMedium("inspection");
  }
}
