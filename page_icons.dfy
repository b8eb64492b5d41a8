/** `get_page_icon` (app.py): the icon shown on the portfolio page, chosen by the icon's `type`. */
module PageIcons {
  import opened Options

  /**
    A page's `icon` object: its `type`, its `emoji` key, and the `url` of each nested
    object it holds (`icon["file"]["url"]`, `icon["external"]["url"]`).
   */
  datatype Icon = Icon(kind: string, emoji: Option<string>, urls: map<string, string>)

  /** The keys the source subscripts for the icon's type exist (a missing one raises). */
  predicate IconReadable(icon: Icon)
  {
    && (icon.kind == "emoji" ==> icon.emoji.Some?)
    && (icon.kind == "file" || icon.kind == "external" ==> icon.kind in icon.urls)
  }

  function PageIcon(icon: Icon): (r: Option<string>)
    requires IconReadable(icon)
    ensures r.Some? <==> icon.kind in {"emoji", "file", "external"}
    ensures icon.kind == "emoji" ==> r == icon.emoji
    ensures icon.kind != "emoji" && r.Some? ==> r.value == icon.urls[icon.kind]
  {
    if icon.kind == "emoji" then icon.emoji
    else if icon.kind in ["file", "external"] then Some(icon.urls[icon.kind])
    else None
  }

  /** The choice reads only the entry named by the type: every other entry can change freely. */
  lemma PageIconReadsOnlyItsType(icon: Icon, other: Icon)
    requires IconReadable(icon) && IconReadable(other)
    requires other.kind == icon.kind
    requires icon.kind == "emoji" ==> other.emoji == icon.emoji
    requires icon.kind in icon.urls && icon.kind in other.urls ==> other.urls[icon.kind] == icon.urls[icon.kind]
    ensures PageIcon(other) == PageIcon(icon)
  {
  }
}
