/** The name and the icon shown for an event type. */
module EventUtils {

  const Unknown := "Неизвестно"
  const DefaultIcon := "event"

  /** The seven keys both tables know. */
  const EventTypes: set<string> := {"lab", "checkpoint", "final", "meeting", "conference", "commission", "other"}

  /** `translateEventType`. */
  function TranslateEventType(t: string): (name: string)
    ensures name == Unknown <==> t !in EventTypes
  {
    match t
    case "lab" => "Лабораторная работа"
    case "checkpoint" => "Контрольная точка"
    case "final" => "Итоговая работа"
    case "meeting" => "Собрание"
    case "conference" => "Конференция"
    case "commission" => "Комиссия"
    case "other" => "Другое"
    case _ => Unknown
  }

  /** `getEventIcon`. */
  function EventIcon(t: string): (icon: string)
    ensures t !in EventTypes ==> icon == DefaultIcon
  {
    match t
    case "lab" => "science"
    case "checkpoint" => "assignment"
    case "final" => "gavel"
    case "meeting" => "groups"
    case "conference" => "record-voice-over"
    case "commission" => "account-balance"
    case "other" => "event"
    case _ => DefaultIcon
  }

  /** Each known type has its own name. */
  lemma LabelsDistinct(t1: string, t2: string)
    requires t1 in EventTypes && t2 in EventTypes && t1 != t2
    ensures TranslateEventType(t1) != TranslateEventType(t2)
  {
  }

  /** `'other'` and every unknown type share the default icon; the six others each have their own. */
  lemma OtherIconIsDefault(t: string)
    ensures EventIcon("other") == DefaultIcon
    ensures EventIcon(t) == DefaultIcon <==> t == "other" || t !in EventTypes
  {
  }

  /** The six keys other than `'other'` each get an icon of their own, none of them the default. */
  lemma SpecificIconsDistinct(t1: string, t2: string)
    requires t1 in EventTypes - {"other"} && t2 in EventTypes - {"other"} && t1 != t2
    ensures EventIcon(t1) != EventIcon(t2)
    ensures EventIcon(t1) != DefaultIcon && EventIcon(t2) != DefaultIcon
  {
  }

  /** Matching is exact: `'laboratory'` and `'Other'` are not keys. */
  lemma NearMissesAreUnknown()
    ensures TranslateEventType("laboratory") == Unknown
    ensures TranslateEventType("Other") == Unknown
    ensures TranslateEventType("event") == Unknown
  {
  }
}
