/** OneProjectPerProfileIdSelector: every dataset, snapshot and file of a
    billing profile lives in one Google project, named after the core
    project and the profile; the file bucket is named after that project. */
module ProjectSelector {
  import opened Common
  import opened Strings

  /** The characters `[a-z-0-9]` kept in a project id suffix. */
  predicate SuffixChar(c: char) {
    IsLower(c) || c == '-' || IsDigit(c)
  }

  /** One character of `replaceAll("[^a-z-0-9]", "-")`. */
  function ReplaceChar(c: char): char {
    if SuffixChar(c) then c else '-'
  }

  /** `replaceAll("[^a-z-0-9]", "-")`: one character for one. */
  function ReplaceNonSuffix(s: string): string {
    if s == [] then [] else [ReplaceChar(s[0])] + ReplaceNonSuffix(s[1..])
  }

  /** The replacement keeps the length and works character by character. */
  lemma {:induction false} ReplaceAt(s: string)
    ensures |ReplaceNonSuffix(s)| == |s|
    ensures forall i :: 0 <= i < |s| ==> ReplaceNonSuffix(s)[i] == ReplaceChar(s[i])
  {
    if s != [] {
      ReplaceAt(s[1..]);
      assert forall i :: 1 <= i < |s| ==> s[1..][i - 1] == s[i];
    }
  }

  /** The suffix "-" + the lower-cased profile name with every character
      outside `[a-z-0-9]` turned into '-'. */
  function ProfileSuffix(profile: BillingProfile): string {
    "-" + ReplaceNonSuffix(ToLower(profile.profileName))
  }

  /** getSuffixForProfileId: the core project id followed by the suffix. */
  function ProjectIdForProfile(coreProjectId: string, profile: BillingProfile): string {
    coreProjectId + ProfileSuffix(profile)
  }

  function ProjectIdForDataset(coreProjectId: string, datasetName: string, profile: BillingProfile): string {
    ProjectIdForProfile(coreProjectId, profile)
  }

  function ProjectIdForSnapshot(coreProjectId: string, snapshotName: string, profile: BillingProfile): string {
    ProjectIdForProfile(coreProjectId, profile)
  }

  function ProjectIdForFile(coreProjectId: string, datasetName: string, profile: BillingProfile): string {
    ProjectIdForProfile(coreProjectId, profile)
  }

  function BucketForFile(coreProjectId: string, datasetName: string, profile: BillingProfile): string {
    ProjectIdForFile(coreProjectId, datasetName, profile) + "-bucket"
  }

  /** The suffix is one '-' and then one character per character of the
      profile name: the name's own character, lower-cased, when that is in
      `[a-z-0-9]`, and '-' otherwise; so it holds only `[a-z-0-9]`. */
  lemma SuffixShape(profile: BillingProfile)
    ensures var n := profile.profileName; var r := ProfileSuffix(profile);
      && |r| == |n| + 1
      && r[0] == '-'
      && (forall i :: 0 <= i < |n| ==> r[i + 1] == ReplaceChar(ToLowerChar(n[i])))
      && (forall i :: 0 <= i < |r| ==> SuffixChar(r[i]))
  {
    var n := profile.profileName;
    ToLowerAt(n);
    ReplaceAt(ToLower(n));
  }

  /** A profile name already made of `[a-z-0-9]` is used as it is. */
  lemma SuffixOfPlainName(profile: BillingProfile)
    requires forall i :: 0 <= i < |profile.profileName| ==> SuffixChar(profile.profileName[i])
    ensures ProfileSuffix(profile) == "-" + profile.profileName
  {
    var n := profile.profileName;
    SuffixShape(profile);
    assert ProfileSuffix(profile)[1..] == n;
  }

  /** The project id is the core project id, a '-' and the suffix; it does
      not depend on the dataset, snapshot or file it is asked for, nor on
      anything of the profile but its name. */
  lemma ProjectIdsAgree(coreProjectId: string, name1: string, name2: string, name3: string, p: BillingProfile, q: BillingProfile)
    requires p.profileName == q.profileName
    ensures ProjectIdForDataset(coreProjectId, name1, p) == ProjectIdForSnapshot(coreProjectId, name2, q)
    ensures ProjectIdForSnapshot(coreProjectId, name2, q) == ProjectIdForFile(coreProjectId, name3, p)
    ensures var r := ProjectIdForFile(coreProjectId, name3, p);
      |r| == |coreProjectId| + 1 + |p.profileName| && r[..|coreProjectId| + 1] == coreProjectId + "-"
  {
    SuffixShape(p);
  }

  /** The bucket name is the file's project id with "-bucket" after it. */
  lemma BucketOfProject(coreProjectId: string, datasetName: string, profile: BillingProfile)
    ensures var b := BucketForFile(coreProjectId, datasetName, profile);
      var id := ProjectIdForFile(coreProjectId, datasetName, profile);
      |b| == |id| + 7 && b[..|id|] == id && b[|id|..] == "-bucket"
  {
  }
}
