/** The fixed reference data of the app: the three stages of the path and
    the four daily efforts (tasks). Icons and colours are presentation and
    are not part of the model. */
module Catalog {

  /** One phase of the path; its position in `Stages` is its unlock order. */
  datatype Stage = Stage(id: string, name: string, desc: string)

  /** One daily effort. `kind` is the source's `type` tag. */
  datatype Task = Task(id: int, text: string, points: int, kind: string)

  const Stages: seq<Stage> := [
    Stage("sharia", "La Coque (Sharia)", "La protection des rituels et de la loi."),
    Stage("tariqa", "Le Cerneau (Tariqa)", "Le voyage intérieur et l'effort sur le Nafs."),
    Stage("haqiqa", "L'Huile (Haqiqa)", "La Vérité ultime et l'extinction en Dieu.")
  ]

  const Tasks: seq<Task> := [
    Task(1, "Dhikr : 5 min de souvenir silencieux", 10, "polissage"),
    Task(2, "Maîtrise du Nafs : Transformer une colère en patience", 25, "ego"),
    Task(3, "Sobriété : Action altruiste sans attendre de merci", 20, "baqa"),
    Task(4, "Contemplation : Voir la lumière dans une 'blessure'", 15, "guerison")
  ]

  /** The largest reward any catalog task carries. */
  const MaxTaskPoints := 25

  /** There are exactly three stages, with distinct identifiers. */
  lemma StagesShape()
    ensures |Stages| == 3
    ensures forall i, j :: 0 <= i < j < |Stages| ==> Stages[i].id != Stages[j].id
  {
  }

  /** The task at position k has id k + 1, so the four ids are 1..4 and distinct,
      and the rewards are 10, 25, 20 and 15 points. */
  lemma TasksShape()
    ensures |Tasks| == 4
    ensures forall k :: 0 <= k < |Tasks| ==> Tasks[k].id == k + 1
    ensures forall i, j :: 0 <= i < j < |Tasks| ==> Tasks[i].id != Tasks[j].id
    ensures [Tasks[0].points, Tasks[1].points, Tasks[2].points, Tasks[3].points] == [10, 25, 20, 15]
  {
  }

  /** Every catalog reward is positive and at most `MaxTaskPoints`. */
  lemma TaskPointsBounded(t: Task)
    requires t in Tasks
    ensures 0 < t.points <= MaxTaskPoints
  {
  }
}
