/**
 * `buildScript` of docs/app_backup.js, which docs/docs/app_backup.js repeats
 * character for character: at most five bullets of `title || text` with the
 * optional rating, publisher and source parts, inside the fixed sections of a
 * short video script.
 */
module FrontBackup {
  import opened Js
  import opened Claims
  import Script

  const BulletCap := 5

  /** `${r.title || r.text}`: no "Untitled" default here, so it can be empty. */
  function Label(r: ClaimRecord): string {
    Or(r.title, r.text)
  }

  /** `- ${r.title || r.text}${rating}${pub}${link}` */
  function Bullet(r: ClaimRecord): string {
    Script.SourceBullet(Label(r), r)
  }

  function Hook(topic: string): string {
    "HOOK: " + topic + "? Let's check what the fact-checkers found."
  }

  /** The lines before the bullets. */
  function Opening(topic: string): seq<string> {
    [Hook(topic), "\nCONTEXT (5-8s):", "\U{2022} Here's the claim and what independent reviewers say.", "", "FINDINGS (15-30s):"]
  }

  /** The lines after the bullets. */
  const Closing: seq<string> := [
    "",
    "NUANCE (5-10s):",
    "\U{2022} Ratings vary by context, date, and wording. Always read the full review.",
    "",
    "OUTRO (3-5s):",
    "Thanks for watching. Like & follow for more verified explainers."]

  /** `buildScript(topic, normalized)` */
  function BuildScript(topic: string, rs: seq<ClaimRecord>): string {
    Join(Opening(topic) + [Join(Script.Bullets(rs, BulletCap, Bullet), "\n")] + Closing, "\n")
  }

  /**
   * The script is the fixed opening (starting with the HOOK line built from
   * the topic), the bullets of the first five results, and the fixed closing;
   * with no results the bullet block is empty.
   */
  lemma ScriptLayout(topic: string, rs: seq<ClaimRecord>)
    ensures var bullets := Join(Script.Bullets(rs, BulletCap, Bullet), "\n");
      BuildScript(topic, rs) == Join(Opening(topic), "\n") + "\n" + bullets + "\n" + Join(Closing, "\n") &&
      (bullets == "" <==> rs == [])
    ensures |Hook(topic)| <= |BuildScript(topic, rs)| && BuildScript(topic, rs)[..|Hook(topic)|] == Hook(topic)
  {
    var bullets := Join(Script.Bullets(rs, BulletCap, Bullet), "\n");
    Script.JoinAround(Opening(topic), bullets, Closing);
    Script.BulletsEmpty(rs, BulletCap, Bullet);
    Script.JoinStartsWith(Opening(topic) + [bullets] + Closing, "\n");
  }
}
