/**
 * `AnnotationConfig` (`src/models/annotation-config.ts`): the configuration
 * of one annotation, whose display label can be replaced by a translation.
 */
module AnnotationConfigs {
  import opened Wrappers
  import opened SceneGraph

  /** `ICamera`: an optional camera pose hint. */
  datatype CameraHint = CameraHint(position: Option<Vec3>, rotation: Option<Vec3>)

  /** `IAnnotationConfig`, the JSON shape the configuration is read from. */
  datatype AnnotationJson = AnnotationJson(
    name: string,
    labelText: string,
    position: string,
    indicator: Option<string>,
    camera: Option<CameraHint>)

  /** A value of the translation record: typed as a string, but any JSON
      value may arrive at run time. */
  datatype JsonValue = Str(text: string) | NonString

  /** The label after a translation lookup: the translated text when the
      record has a string under `name`, the old label otherwise. */
  function TranslatedLabel(labelText: string, name: string, translation: map<string, JsonValue>): (r: string)
    ensures name in translation && translation[name].Str? ==> r == translation[name].text
    ensures r == labelText || (name in translation && translation[name] == Str(r))
  {
    if name in translation && translation[name].Str? then translation[name].text else labelText
  }

  /** Translating again with the same record changes nothing. */
  lemma TranslationIdempotent(labelText: string, name: string, translation: map<string, JsonValue>)
    ensures TranslatedLabel(TranslatedLabel(labelText, name, translation), name, translation)
         == TranslatedLabel(labelText, name, translation)
  {
  }

  /** Only the entry under `name` matters: entries for other keys never change the label. */
  lemma TranslationLocal(labelText: string, name: string, translation: map<string, JsonValue>, key: string, v: JsonValue)
    requires key != name
    ensures TranslatedLabel(labelText, name, translation[key := v]) == TranslatedLabel(labelText, name, translation)
  {
  }

  /** `labelText` is the source's `label` field (`label` is a Dafny keyword). */
  class AnnotationConfig {
    var name: string
    var labelText: string
    var position: string
    var indicator: Option<string>
    var camera: Option<CameraHint>

    /** The configuration as the JSON shape it came from. */
    function ToJson(): AnnotationJson
      reads this
    {
      AnnotationJson(name, labelText, position, indicator, camera)
    }

    /** Copies every field of the JSON unchanged. */
    constructor (json: AnnotationJson)
      ensures ToJson() == json
    {
      name := json.name;
      labelText := json.labelText;
      position := json.position;
      indicator := json.indicator;
      camera := json.camera;
    }

    /** `updateTranslation`: the label is replaced only by a string found under `name`. */
    method UpdateTranslation(translation: map<string, JsonValue>)
      modifies this`labelText
      ensures labelText == TranslatedLabel(old(labelText), name, translation)
      ensures name == old(name) && position == old(position)
      ensures indicator == old(indicator) && camera == old(camera)
    {
      if name in translation {
        if translation[name].Str? {
          labelText := translation[name].text;
        }
      }
    }
  }
}
