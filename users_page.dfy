/** The users table (src/app/users/page.tsx): how a user's metadata and
    email are rendered. `JSON.stringify(metadata, null, 2)` is not modelled:
    the serialised text is part of the input. */
module UsersPage {
  import opened Common

  const MaxShown := 80
  const Ellipsis := "..."

  /** A user's `metadata`: `Falsy` for null or undefined, else an object with
      `keyCount` keys whose serialised text is `json`. */
  datatype Metadata = Falsy | Object(keyCount: nat, json: string)

  /** What the metadata cell shows: `-`, or a `<pre>` with the shown text
      and the tooltip `title`. */
  datatype Cell = Dash | Pre(shown: string, title: string)

  /** Text of more than 80 characters is cut to its first 80 plus `...`. */
  function Truncate(json: string): (r: string)
    ensures |json| <= MaxShown ==> r == json
    ensures |json| > MaxShown ==> |r| == MaxShown + 3 && r[..MaxShown] == json[..MaxShown] && r[MaxShown..] == Ellipsis
    ensures |r| <= MaxShown + 3
  {
    if |json| > MaxShown then json[..MaxShown] + Ellipsis else json
  }

  /** `renderMetadata` */
  function RenderMetadata(metadata: Metadata): (c: Cell)
    ensures c.Dash? <==> metadata.Falsy? || metadata.keyCount == 0
    ensures c.Pre? ==> c.title == metadata.json && c.shown == Truncate(metadata.json)
  {
    if metadata.Falsy? || metadata.keyCount == 0 then Dash
    else Pre(Truncate(metadata.json), metadata.json)
  }

  /** The shown text never loses what the tooltip has within its first 80
      characters, and nothing is cut from text the tooltip shows in full. */
  lemma ShownAgreesWithTitle(metadata: Metadata)
    requires RenderMetadata(metadata).Pre?
    ensures var c := RenderMetadata(metadata);
      var n := if |c.title| < MaxShown then |c.title| else MaxShown;
      |c.shown| >= n && c.shown[..n] == c.title[..n]
  {
  }

  /** `user.email || '-'` */
  function EmailCell(email: Option<string>): (r: string)
    ensures email.Some? && email.value != "" ==> r == email.value
    ensures email.None? || email.value == "" ==> r == "-"
  {
    if email.Some? && email.value != "" then email.value else "-"
  }
}
