/**
 How a status code is turned into text and colour. The dashboard has three
 independent tables for this: the details dialog's label and colour tables
 and the status badges of the claim list and of the admin panel. Each is
 modelled as written, and the lemmas show that they agree with each other
 and with the status enumeration.
 */
module StatusDisplay {
  import opened ClaimData

  const Unknown: string := "Unknown"

  /** JavaScript's `table[key] || fallback` on a string-valued record: a
      missing key and an empty (falsy) string both yield the fallback. */
  function LookupOr(table: map<int, string>, key: int, fallback: string): (r: string)
    ensures key in table && table[key] != "" ==> r == table[key]
    ensures key !in table ==> r == fallback
  {
    if key in table && table[key] != "" then table[key] else fallback
  }

  /** The details dialog's label table. */
  const DetailsLabels: map<int, string> :=
    map[0 := "Pending", 1 := "Approved", 2 := "Denied", 3 := "PaidOut"]

  /** The details dialog's text colour table. */
  const DetailsColors: map<int, string> :=
    map[0 := "text-yellow-600", 1 := "text-green-600", 2 := "text-red-600", 3 := "text-purple-600"]

  const DetailsFallbackColor: string := "text-gray-600"

  /** The label the details dialog shows for a status code. */
  function StatusText(code: int): (text: string)
    ensures DecodeStatus(code).Some? ==> text == Name(DecodeStatus(code).value)
    ensures DecodeStatus(code).None? <==> text == Unknown
  {
    LookupOr(DetailsLabels, code, Unknown)
  }

  /** The colour class of the status line in the details dialog. */
  function StatusColor(code: int): (color: string)
    ensures DecodeStatus(code).None? <==> color == DetailsFallbackColor
  {
    LookupOr(DetailsColors, code, DetailsFallbackColor)
  }

  /** The colour family each status is drawn in, in every table. */
  function Hue(s: Status): string
  {
    match s
    case Pending => "yellow"
    case Approved => "green"
    case Denied => "red"
    case PaidOut => "purple"
  }

  const FallbackHue: string := "gray"

  datatype Badge = Badge(caption: string, color: string)

  /** The claim list's badge table. */
  const ListBadges: map<int, Badge> := map[
    0 := Badge("Pending", "bg-yellow-100 text-yellow-800 hover:bg-yellow-100"),
    1 := Badge("Approved", "bg-green-100 text-green-800 hover:bg-green-100"),
    2 := Badge("Denied", "bg-red-100 text-red-800 hover:bg-red-100"),
    3 := Badge("PaidOut", "bg-purple-100 text-purple-800 hover:bg-purple-100")
  ]

  /** The admin panel's badge table, written separately in its own file. */
  const AdminBadges: map<int, Badge> := map[
    0 := Badge("Pending", "bg-yellow-100 text-yellow-800 hover:bg-yellow-100"),
    1 := Badge("Approved", "bg-green-100 text-green-800 hover:bg-green-100"),
    2 := Badge("Denied", "bg-red-100 text-red-800 hover:bg-red-100"),
    3 := Badge("PaidOut", "bg-purple-100 text-purple-800 hover:bg-purple-100")
  ]

  const UnknownBadge: Badge := Badge("Unknown", "bg-gray-100 text-gray-800 hover:bg-gray-100")

  /** `table[key] || fallback` on an object-valued record: an object is
      never falsy, so only a missing key falls back. */
  function BadgeOr(table: map<int, Badge>, key: int): (b: Badge)
    ensures key in table ==> b == table[key]
    ensures key !in table ==> b == UnknownBadge
  {
    if key in table then table[key] else UnknownBadge
  }

  /** The badge a claim-list row shows for a status code. */
  function ListBadge(code: int): (b: Badge)
    ensures DecodeStatus(code).Some? ==> b.caption == Name(DecodeStatus(code).value)
    ensures DecodeStatus(code).None? <==> b == UnknownBadge
  {
    BadgeOr(ListBadges, code)
  }

  /** The badge an admin-panel row shows for a status code. */
  function AdminBadge(code: int): (b: Badge)
    ensures DecodeStatus(code).Some? ==> b.caption == Name(DecodeStatus(code).value)
    ensures DecodeStatus(code).None? <==> b == UnknownBadge
  {
    BadgeOr(AdminBadges, code)
  }

  /** A class name drawn in the given colour family: the family's name
      follows the class prefix, as in `text-yellow-600`. */
  predicate InFamily(cls: string, prefix: string, hue: string)
  {
    |prefix| + |hue| <= |cls| && cls[..|prefix|] == prefix && cls[|prefix|..|prefix| + |hue|] == hue
  }

  /** The dialog draws each known status in its own colour family and
      every other code in gray. */
  lemma StatusColorFamily(code: int)
    ensures DecodeStatus(code).Some? ==> InFamily(StatusColor(code), "text-", Hue(DecodeStatus(code).value))
    ensures DecodeStatus(code).None? ==> InFamily(StatusColor(code), "text-", FallbackHue)
  {
    if code == 0 {
      assert StatusColor(code) == "text-yellow-600";
      assert "text-yellow-600"[..5] == "text-" && "text-yellow-600"[5..11] == "yellow";
    } else if code == 1 {
      assert StatusColor(code) == "text-green-600";
      assert "text-green-600"[..5] == "text-" && "text-green-600"[5..10] == "green";
    } else if code == 2 {
      assert StatusColor(code) == "text-red-600";
      assert "text-red-600"[..5] == "text-" && "text-red-600"[5..8] == "red";
    } else if code == 3 {
      assert StatusColor(code) == "text-purple-600";
      assert "text-purple-600"[..5] == "text-" && "text-purple-600"[5..11] == "purple";
    } else {
      assert StatusColor(code) == "text-gray-600";
      assert "text-gray-600"[..5] == "text-" && "text-gray-600"[5..9] == "gray";
    }
  }

  /** The three tables agree on every code: the dialog, the claim list and
      the admin panel show the same label, and the two badge tables are the
      same table. */
  lemma TablesAgree(code: int)
    ensures ListBadge(code) == AdminBadge(code)
    ensures ListBadge(code).caption == StatusText(code)
  {
  }

  /** No known status is labelled "Unknown", so the label alone tells a
      known code from an unknown one. */
  lemma UnknownIsNotAStatusName(s: Status)
    ensures Name(s) != Unknown
    ensures StatusText(Code(s)) != Unknown
  {
  }
}
