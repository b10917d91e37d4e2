/** `MerchantService.#GeneratePartyID`: a short upper-case code derived from a
    company name by a linear probe against the party ids already issued. */
module PartyIdGenerator {
  import opened Text

  /** `String(companyName).replace(/\s+/g, "").trim().toUpperCase()` */
  function NormalizedName(companyName: string): string {
    Upper(Trim(StripWhitespace(companyName)))
  }

  /** The normalised name is no longer than the company name, holds no white
      space and no lower-case letter. */
  lemma NormalizedNameSpec(companyName: string)
    ensures var n := NormalizedName(companyName);
      && |n| <= |companyName|
      && (forall i :: 0 <= i < |n| ==> !IsWhitespace(n[i]))
      && IsUpperCased(n)
  {
    var stripped := StripWhitespace(companyName);
    StripWhitespaceSpec(companyName);
    TrimWithoutWhitespace(stripped);
    UpperKeepsNoWhitespace(stripped);
    UpperSpec(stripped);
    UpperIsUpperCased(stripped);
  }

  /** `companyNameWithoutSpaces.slice(0, 2)` */
  function Seed(n: string): (s: string)
    ensures |s| <= 2 && |s| <= |n| && s == n[..|s|]
    ensures |n| >= 2 ==> |s| == 2
  {
    Take(n, 2)
  }

  /** Reference definition of the probe, starting at position `i`: the first
      candidate `seed + n[k]` (k >= i) not issued yet, or the bare seed when
      every candidate is taken. */
  function Probe(n: string, existing: seq<string>, i: nat): string
    decreases |n| - i
  {
    if i >= |n| then Seed(n)
    else if Seed(n) + [n[i]] !in existing then Seed(n) + [n[i]]
    else Probe(n, existing, i + 1)
  }

  /** The party id `#GeneratePartyID` returns for `companyName` when the
      issued party ids are `existing`. */
  function PartyId(companyName: string, existing: seq<string>): string {
    Upper(Probe(NormalizedName(companyName), existing, 2))
  }

  /** The loop of `#GeneratePartyID`, over the party ids read from the store. */
  method GeneratePartyId(companyName: string, partyIds: seq<string>) returns (partyId: string)
    ensures partyId == PartyId(companyName, partyIds)
  {
    var companyNameWithoutSpaces := Upper(Trim(StripWhitespace(companyName)));
    partyId := Take(companyNameWithoutSpaces, 2);
    var i := 2;
    while i < |companyNameWithoutSpaces|
      invariant i >= 2
      invariant partyId == Seed(companyNameWithoutSpaces)
      invariant Probe(companyNameWithoutSpaces, partyIds, i) == Probe(companyNameWithoutSpaces, partyIds, 2)
    {
      var isFound := partyId + [companyNameWithoutSpaces[i]] in partyIds;
      if !isFound {
        partyId := partyId + [companyNameWithoutSpaces[i]];
        break;
      }
      i := i + 1;
    }
    partyId := Upper(partyId);
  }

  lemma {:induction false} ProbeShape(n: string, existing: seq<string>, i: nat)
    requires i >= 2
    ensures var r := Probe(n, existing, i);
      Seed(n) <= r && |r| <= |Seed(n)| + 1 &&
      (|r| == |Seed(n)| + 1 <==> exists k :: i <= k < |n| && Seed(n) + [n[k]] !in existing) &&
      (|r| == |Seed(n)| + 1 ==> exists k :: i <= k < |n| && r == Seed(n) + [n[k]] &&
                                 Seed(n) + [n[k]] !in existing &&
                                 forall m :: i <= m < k ==> Seed(n) + [n[m]] in existing)
    decreases |n| - i
  {
    if i < |n| && Seed(n) + [n[i]] in existing {
      ProbeShape(n, existing, i + 1);
      var r := Probe(n, existing, i);
      if |r| == |Seed(n)| + 1 {
        var k :| i + 1 <= k < |n| && r == Seed(n) + [n[k]] && Seed(n) + [n[k]] !in existing &&
                 forall m :: i + 1 <= m < k ==> Seed(n) + [n[m]] in existing;
        assert forall m :: i <= m < k ==> Seed(n) + [n[m]] in existing;
      }
    }
  }

  lemma ProbeIsUpperCased(n: string, existing: seq<string>, i: nat)
    requires IsUpperCased(n) && i >= 2
    ensures IsUpperCased(Probe(n, existing, i))
    decreases |n| - i
  {
    if i < |n| && Seed(n) + [n[i]] in existing {
      ProbeIsUpperCased(n, existing, i + 1);
    }
  }

  /** Seed and shape: the id starts with the first two characters of the
      normalised name, has at most three characters, and is upper case. */
  lemma PartyIdStartsWithSeed(companyName: string, existing: seq<string>)
    ensures var n := NormalizedName(companyName);
      var r := PartyId(companyName, existing);
      IsUpperCased(r) && |r| <= 3 && n[..if |n| < 2 then |n| else 2] <= r
  {
    var n := NormalizedName(companyName);
    NormalizedNameSpec(companyName);
    ProbeShape(n, existing, 2);
    ProbeIsUpperCased(n, existing, 2);
    UpperIsUpperCased(Probe(n, existing, 2));
  }

  /** Extension: a three-character id is `seed + n[i]` for the least i >= 2
      whose candidate is not issued yet, so it never collides; the bare seed
      comes back exactly when every candidate is taken. */
  lemma PartyIdExtension(companyName: string, existing: seq<string>)
    requires |NormalizedName(companyName)| >= 2
    ensures var n := NormalizedName(companyName);
      var r := PartyId(companyName, existing);
      && (|r| == 3 <==> exists i :: 2 <= i < |n| && n[..2] + [n[i]] !in existing)
      && (|r| == 3 ==> r !in existing &&
                       exists i :: 2 <= i < |n| && r == n[..2] + [n[i]] &&
                                   forall k :: 2 <= k < i ==> n[..2] + [n[k]] in existing)
      && (|r| != 3 ==> r == n[..2])
  {
    var n := NormalizedName(companyName);
    NormalizedNameSpec(companyName);
    ProbeShape(n, existing, 2);
    ProbeIsUpperCased(n, existing, 2);
    UpperIsUpperCased(Probe(n, existing, 2));
  }

  /** The exhausted probe can hand out an id that is already issued: "AB",
      with "AB" taken, comes back as "AB". */
  lemma ExhaustedProbeMayCollide()
    ensures PartyId("AB", ["AB"]) == "AB"
  {
    StripWhitespaceOfNone("AB");
    TrimWithoutWhitespace("AB");
    UpperIsUpperCased("AB");
    assert NormalizedName("AB") == "AB";
    assert Probe("AB", ["AB"], 2) == "AB";
  }
}
