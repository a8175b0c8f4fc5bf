/** Dart code generation for one widget: a dispatch on the widget type to a
    per-type renderer, each filling a named template with values looked up
    in the widget's properties (with per-key defaults), and a wrapper that
    positions every widget except app bars and bottom navigation bars.

    Template rendering is kept abstract: a rendered template is the term
    `Template(name, arguments)`, so two renderings are equal exactly when
    they use the same template with the same arguments. */
module WidgetGen {
  import opened Wrappers
  import opened PyText
  import Json
  import opened ProjectModel
  import opened Converters

  /** A template argument. */
  datatype Arg =
    | Literal(s: string)                  // a string the generator computed
    | Prop(v: Json.Value)                 // a property value passed through
    | Place(c: Coord)                     // a converted coordinate
    | Fraction(r: real)                   // a ratio printed with six decimals
    | Entries(entries: seq<map<string, Arg>>)
    | Nested(code: Code)
    | Flag(b: bool)
    | Number(x: real)                     // a float passed through
    | Texts(lines: seq<string>)
    | Pairs(pairs: seq<(string, string)>) // a dict of strings, in insertion order
    | Absent                              // None

  datatype Code =
    | Template(name: string, args: map<string, Arg>)
    | GreyBox(width: Coord, height: Coord, caption: string)   // the inline placeholder container

  type Entry = map<string, Arg>

  /** `props.get(key, default)` passed through to the template. */
  function PropOr(props: Json.Fields, key: string, default: Json.Value): Arg {
    Prop(Json.Get(props, key, default))
  }

  /** `hex_to_dart_color(props.get(key, default))`; a value that is not a
      string has no `startswith` and raises `AttributeError`. */
  function ColorOr(props: Json.Fields, key: string, default: string): Result<Arg> {
    var v := Json.Get(props, key, Json.Str(default));
    if v.Str? then Ok(Literal(HexToDartColor(v.s))) else Err(AttributeError)
  }

  /** `table.get(v, default)` on a table keyed by strings: a list or a dict
      is unhashable and raises `TypeError`; any other non-string misses. */
  function LookupOr(table: map<string, string>, v: Json.Value, default: string): Result<string> {
    match v
    case Str(s) => Ok(if s in table then table[s] else default)
    case Arr(_) => Err(TypeError)
    case Obj(_) => Err(TypeError)
    case _ => Ok(default)
  }

  /** `table.get(v.lower(), default)`: a non-string has no `lower`. */
  function LookupLowerOr(table: map<string, string>, v: Json.Value, default: string): Result<string> {
    if v.Str? then Ok(if Lower(v.s) in table then table[Lower(v.s)] else default) else Err(AttributeError)
  }

  /** `str(v).lower()` */
  function BoolText(v: Json.Value): string {
    Lower(Json.PyStr(v))
  }

  /** `props.get('fontSize', 16) / 390`: only numbers (and booleans, which
      are integers in Python) divide; anything else raises `TypeError`. */
  function FontRatio(props: Json.Fields): Result<real> {
    match Json.Get(props, "fontSize", Json.Num(16.0, "16"))
    case Num(n, _) => Ok(n / 390.0)
    case Bool(b) => Ok(if b then 1.0 / 390.0 else 0.0)
    case _ => Err(TypeError)
  }

  /** A non-negative integer literal of the source. */
  function Int(n: nat): Json.Value {
    Json.Num(n as real, IntText(n))
  }

  /** Decimal text of a non-negative integer. */
  function IntText(n: nat): string {
    if n < 10 then [(48 + n) as char]
    else IntText(n / 10) + [(48 + n % 10) as char]
  }

  function Strs(ss: seq<string>): Json.Value {
    Json.Arr(seq(|ss|, i requires 0 <= i < |ss| => Json.Str(ss[i])))
  }

  function Sized(args: map<string, Arg>, layout: Layout): map<string, Arg> {
    args["width" := Place(layout.width)]["height" := Place(layout.height)]
  }

  // ---------------------------------------------------------------------
  // The per-type renderers, each checking its properties in source order.

  function TextWidget(props: Json.Fields): Result<Code> {
    var ratio :- FontRatio(props);
    var color :- ColorOr(props, "color", "#000000");
    var weight :- LookupOr(FontWeightMapping(), Json.Get(props, "fontWeight", Json.Str("normal")), "FontWeight.normal");
    var align :- LookupOr(TextAlignMapping(), Json.Get(props, "textAlign", Json.Str("left")), "TextAlign.left");
    Ok(Template("widgets/text.dart.j2", map[
      "text" := PropOr(props, "text", Json.Str("Text")),
      "font_size_ratio" := Fraction(ratio),
      "color" := color,
      "font_weight" := Literal(weight),
      "text_align" := Literal(align)]))
  }

  function ButtonWidget(props: Json.Fields, layout: Layout): Result<Code> {
    var bg :- ColorOr(props, "backgroundColor", "#2196F3");
    var fg :- ColorOr(props, "textColor", "#FFFFFF");
    Ok(Template("widgets/button.dart.j2", Sized(map[
      "text" := PropOr(props, "text", Json.Str("Button")),
      "bg_color" := bg,
      "text_color" := fg,
      "font_size_px" := PropOr(props, "fontSize", Int(16)),
      "border_radius_px" := PropOr(props, "borderRadius", Int(8))], layout)))
  }

  function TextFieldWidget(props: Json.Fields, layout: Layout, id: string): Result<Code> {
    var border :- ColorOr(props, "borderColor", "#D1D1D6");
    Ok(Template("widgets/textfield.dart.j2", Sized(map[
      "widget_id" := Literal(id),
      "placeholder" := PropOr(props, "placeholder", Json.Str("Enter text...")),
      "border_color" := border,
      "border_radius_px" := PropOr(props, "borderRadius", Int(8))], layout)))
  }

  function ImageWidget(props: Json.Fields, layout: Layout): Result<Code> {
    var fit :- LookupOr(BoxFitMapping(), Json.Get(props, "fit", Json.Str("cover")), "BoxFit.cover");
    Ok(Template("widgets/image.dart.j2", Sized(map[
      "src" := PropOr(props, "src", Json.Str("https://via.placeholder.com/150")),
      "fit" := Literal(fit)], layout)))
  }

  function ContainerWidget(props: Json.Fields, layout: Layout): Result<Code> {
    var color :- ColorOr(props, "color", "#E3F2FD");
    Ok(Template("widgets/container.dart.j2", Sized(map[
      "color" := color,
      "padding_px" := PropOr(props, "padding", Int(16)),
      "margin_px" := PropOr(props, "margin", Int(8)),
      "border_radius_px" := PropOr(props, "borderRadius", Int(4)),
      "has_child" := Flag(false),
      "child_content" := Literal("")], layout)))
  }

  function IconWidget(props: Json.Fields): Result<Code> {
    var icon :- LookupLowerOr(IconMapping(), Json.Get(props, "iconName", Json.Str("star")), "Icons.star");
    var color :- ColorOr(props, "color", "#000000");
    Ok(Template("widgets/icon.dart.j2", map[
      "icon" := Literal(icon),
      "size_px" := PropOr(props, "size", Int(24)),
      "color" := color]))
  }

  function CheckboxWidget(props: Json.Fields, layout: Layout): Result<Code> {
    var active :- ColorOr(props, "activeColor", "#2196F3");
    Ok(Template("widgets/checkbox.dart.j2", Sized(map[
      "label" := PropOr(props, "label", Json.Str("Checkbox")),
      "value" := Literal(BoolText(Json.Get(props, "value", Json.Bool(false)))),
      "active_color" := active], layout)))
  }

  function SwitchWidget(props: Json.Fields, layout: Layout, id: string): Result<Code> {
    var active :- ColorOr(props, "activeColor", "#2196F3");
    Ok(Template("widgets/switch.dart.j2", Sized(map[
      "widget_id" := Literal(id),
      "value" := Literal(BoolText(Json.Get(props, "value", Json.Bool(false)))),
      "active_color" := active], layout)))
  }

  function SliderWidget(props: Json.Fields, layout: Layout, id: string): Result<Code> {
    var active :- ColorOr(props, "activeColor", "#2196F3");
    Ok(Template("widgets/slider.dart.j2", Sized(map[
      "widget_id" := Literal(id),
      "value" := PropOr(props, "value", Int(50)),
      "min" := PropOr(props, "min", Int(0)),
      "max" := PropOr(props, "max", Int(100)),
      "active_color" := active], layout)))
  }

  function DividerWidget(props: Json.Fields, layout: Layout): Result<Code> {
    var color :- ColorOr(props, "color", "#E0E0E0");
    Ok(Template("widgets/divider.dart.j2", Sized(map[
      "orientation" := PropOr(props, "orientation", Json.Str("horizontal")),
      "thickness_px" := PropOr(props, "thickness", Int(1)),
      "color" := color], layout)))
  }

  function ProgressWidget(props: Json.Fields, layout: Layout): Result<Code> {
    var background :- ColorOr(props, "backgroundColor", "#E0E0E0");
    var value :- ColorOr(props, "valueColor", "#2196F3");
    Ok(Template("widgets/progress.dart.j2", Sized(map[
      "value" := PropOr(props, "value", Json.Num(0.5, "0.5")),
      "background_color" := background,
      "value_color" := value], layout)))
  }

  function ChipWidget(props: Json.Fields): Result<Code> {
    var fg :- ColorOr(props, "textColor", "#000000");
    var bg :- ColorOr(props, "backgroundColor", "#E0E0E0");
    Ok(Template("widgets/chip.dart.j2", map[
      "label" := PropOr(props, "label", Json.Str("Chip")),
      "text_color" := fg,
      "background_color" := bg,
      "font_size_px" := PropOr(props, "fontSize", Int(14))]))
  }

  function TableWidget(props: Json.Fields, layout: Layout): Result<Code> {
    var header :- ColorOr(props, "headerColor", "#2196F3");
    var headerText :- ColorOr(props, "headerTextColor", "#FFFFFF");
    var text :- ColorOr(props, "textColor", "#000000");
    var row :- ColorOr(props, "rowColor", "#FFFFFF");
    var alternate :- ColorOr(props, "alternateRowColor", "#F5F5F5");
    var border :- ColorOr(props, "borderColor", "#E0E0E0");
    Ok(Template("widgets/table.dart.j2", Sized(map[
      "columns" := PropOr(props, "columns", Strs(["Column 1", "Column 2"])),
      "rows" := PropOr(props, "rows", Json.Arr([Strs(["Data 1", "Data 2"])])),
      "header_color" := header,
      "header_text_color" := headerText,
      "text_color" := text,
      "row_color" := row,
      "alternate_row_color" := alternate,
      "border_color" := border,
      "font_size_px" := PropOr(props, "fontSize", Int(14)),
      "padding_px" := PropOr(props, "padding", Int(8)),
      "show_borders" := PropOr(props, "showBorders", Json.Bool(true))], layout)))
  }

  function RadioWidget(props: Json.Fields, layout: Layout, id: string): Result<Code> {
    var active :- ColorOr(props, "activeColor", "#2196F3");
    Ok(Template("widgets/radio.dart.j2", Sized(map[
      "widget_id" := Literal(id),
      "label" := PropOr(props, "label", Json.Str("Radio Option")),
      "value" := Literal(BoolText(Json.Get(props, "value", Json.Bool(false)))),
      "active_color" := active,
      "font_size_px" := PropOr(props, "fontSize", Int(16))], layout)))
  }

  /** One checklist row: the item and whether its index is checked. */
  function ChecklistEntry(item: Json.Value, isChecked: bool): Entry {
    map["text" := Prop(item), "checked" := Literal(BoolText(Json.Bool(isChecked)))]
  }

  /** The rows of `for i, item in enumerate(items)`, with `i in checked`
      evaluated once per row. */
  function ChecklistEntries(items: seq<Json.Value>, checked: Json.Value): Result<seq<Entry>> {
    if items == [] then Ok([])
    else
      var init :- ChecklistEntries(items[..|items| - 1], checked);
      var isChecked :- Json.IntIn(|items| - 1, checked);
      Ok(init + [ChecklistEntry(items[|items| - 1], isChecked)])
  }

  /** The checklist's append loop. */
  method BuildChecklistEntries(items: seq<Json.Value>, checked: Json.Value) returns (r: Result<seq<Entry>>)
    ensures r == ChecklistEntries(items, checked)
  {
    var entries: seq<Entry> := [];
    var i := 0;
    while i < |items|
      invariant 0 <= i <= |items|
      invariant ChecklistEntries(items[..i], checked) == Ok(entries)
    {
      assert items[..i + 1][..i] == items[..i];
      var isChecked := Json.IntIn(i, checked);
      if isChecked.Err? {
        ChecklistFailsWhole(items, checked);
        return Err(isChecked.error);
      }
      entries := entries + [ChecklistEntry(items[i], isChecked.value)];
      i := i + 1;
    }
    assert items[..i] == items;
    r := Ok(entries);
  }

  function ChecklistWidget(props: Json.Fields, layout: Layout, id: string): Result<Code> {
    var checked := Json.Get(props, "checkedItems", Json.Arr([Int(0)]));
    var itemColor :- ColorOr(props, "itemColor", "#000000");
    var checkedColor :- ColorOr(props, "checkedColor", "#2196F3");
    var items :- Json.Iterate(Json.Get(props, "items", Strs(["Task 1", "Task 2", "Task 3"])));
    var entries :- ChecklistEntries(items, checked);
    Ok(Template("widgets/checklist.dart.j2", Sized(map[
      "widget_id" := Literal(id),
      "items" := Entries(entries),
      "item_color" := itemColor,
      "checked_color" := checkedColor,
      "font_size_px" := PropOr(props, "fontSize", Int(16))], layout)))
  }

  function AppBarWidget(props: Json.Fields): Result<Code> {
    var bg :- ColorOr(props, "backgroundColor", "#2196F3");
    var title :- ColorOr(props, "titleColor", "#FFFFFF");
    Ok(Template("widgets/appbar.dart.j2", map[
      "title" := PropOr(props, "title", Json.Str("App Title")),
      "background_color" := bg,
      "title_color" := title,
      "elevation" := PropOr(props, "elevation", Int(4)),
      "center_title" := Literal(BoolText(Json.Get(props, "centerTitle", Json.Bool(true)))),
      "font_size_px" := PropOr(props, "fontSize", Int(20))]))
  }

  /** One navigation item: its label and the icon looked up lower-cased. */
  function NavEntry(item: Json.Value, icon: string): Entry {
    map["icon" := Literal(icon), "label" := Prop(item)]
  }

  function Min(a: nat, b: nat): nat { if a <= b then a else b }

  /** The items of `for item, icon in zip(items, icons)`: as many as the
      shorter list, an unknown icon shown as `Icons.home`. */
  function NavEntries(table: map<string, string>, items: seq<Json.Value>, icons: seq<Json.Value>, n: nat): Result<seq<Entry>>
    requires n <= |items| && n <= |icons|
  {
    if n == 0 then Ok([])
    else
      var init :- NavEntries(table, items, icons, n - 1);
      var icon :- LookupLowerOr(table, icons[n - 1], "Icons.home");
      Ok(init + [NavEntry(items[n - 1], icon)])
  }

  /** The bottom navigation's append loop. */
  method BuildNavEntries(table: map<string, string>, items: seq<Json.Value>, icons: seq<Json.Value>)
    returns (r: Result<seq<Entry>>)
    ensures r == NavEntries(table, items, icons, Min(|items|, |icons|))
  {
    var entries: seq<Entry> := [];
    var i := 0;
    var n := Min(|items|, |icons|);
    while i < n
      invariant 0 <= i <= n
      invariant NavEntries(table, items, icons, i) == Ok(entries)
    {
      var icon := LookupLowerOr(table, icons[i], "Icons.home");
      if icon.Err? {
        NavFailsWhole(table, items, icons, i + 1, n);
        return Err(icon.error);
      }
      entries := entries + [NavEntry(items[i], icon.value)];
      i := i + 1;
    }
    r := Ok(entries);
  }

  function BottomNavWidget(props: Json.Fields): Result<Code> {
    var items :- Json.Iterate(Json.Get(props, "items", Strs(["Home"])));
    var icons :- Json.Iterate(Json.Get(props, "icons", Strs(["home"])));
    var entries :- NavEntries(IconMapping(), items, icons, Min(|items|, |icons|));
    var bg :- ColorOr(props, "backgroundColor", "#FFFFFF");
    var selected :- ColorOr(props, "selectedColor", "#2196F3");
    var unselected :- ColorOr(props, "unselectedColor", "#757575");
    Ok(Template("widgets/bottomnav.dart.j2", map[
      "items" := Entries(entries),
      "background_color" := bg,
      "selected_color" := selected,
      "unselected_color" := unselected,
      "font_size_px" := PropOr(props, "fontSize", Int(14))]))
  }

  function DropdownWidget(props: Json.Fields, layout: Layout): Result<Code> {
    var bg :- ColorOr(props, "backgroundColor", "#FFFFFF");
    var border :- ColorOr(props, "borderColor", "#CCCCCC");
    var text :- ColorOr(props, "textColor", "#000000");
    var arrow :- ColorOr(props, "arrowColor", "#757575");
    Ok(Template("widgets/dropdown.dart.j2", Sized(map[
      "items" := PropOr(props, "items", Strs(["Option 1", "Option 2", "Option 3"])),
      "placeholder" := PropOr(props, "placeholder", Json.Str("Select an option")),
      "background_color" := bg,
      "border_color" := border,
      "text_color" := text,
      "arrow_color" := arrow,
      "font_size_px" := PropOr(props, "fontSize", Int(14)),
      "border_radius" := PropOr(props, "borderRadius", Int(4)),
      "border_width" := PropOr(props, "borderWidth", Int(1))], layout)))
  }

  /** The 18 widget types with a renderer of their own. */
  const HandledTypes: set<string> := {
    "text", "button", "textfield", "image", "container", "icon", "checkbox", "switch", "slider",
    "divider", "progress", "chip", "table", "radio", "checklist", "dropdown", "appbar", "bottomnavbar"}

  /** `_generate_widget_content`: the dispatch on the widget type. */
  function Content(w: FlutterWidget, layout: Layout, screenWidth: real, screenHeight: real): Result<Code> {
    var props := w.properties;
    match w.kind
    case "text" => TextWidget(props)
    case "button" => ButtonWidget(props, layout)
    case "textfield" => TextFieldWidget(props, layout, w.id)
    case "image" => ImageWidget(props, layout)
    case "container" => ContainerWidget(props, layout)
    case "icon" => IconWidget(props)
    case "checkbox" => CheckboxWidget(props, layout)
    case "switch" => SwitchWidget(props, layout, w.id)
    case "slider" => SliderWidget(props, layout, w.id)
    case "divider" => DividerWidget(props, layout)
    case "progress" => ProgressWidget(props, layout)
    case "chip" => ChipWidget(props)
    case "table" => TableWidget(props, ConvertTablePosition(w.position, w.size, screenWidth, screenHeight))
    case "radio" => RadioWidget(props, layout, w.id)
    case "checklist" => ChecklistWidget(props, layout, w.id)
    case "dropdown" => DropdownWidget(props, layout)
    case "appbar" => AppBarWidget(props)
    case "bottomnavbar" => BottomNavWidget(props)
    case _ => Ok(GreyBox(layout.width, layout.height, w.kind))
  }

  /** Types drawn in the page's own slots rather than positioned. */
  predicate Unwrapped(kind: string) {
    kind == "appbar" || kind == "bottomnavbar"
  }

  /** `generate_widget` */
  function WidgetCode(w: FlutterWidget, screenWidth: real, screenHeight: real): Result<Code> {
    var layout := ConvertPosition(w.position, w.size, screenWidth, screenHeight);
    var content :- Content(w, layout, screenWidth, screenHeight);
    if Unwrapped(w.kind) then Ok(content)
    else Ok(Template("widget_wrapper.dart.j2", map[
      "left" := Place(layout.left),
      "top" := Place(layout.top),
      "widget_content" := Nested(content)]))
  }

  // ---------------------------------------------------------------------
  // Properties.

  /** App bars and bottom navigation bars come back as their bare content;
      every other widget is wrapped, at the `left` and `top` of the generic
      position conversion, around exactly its content.  Failures are those
      of the content. */
  lemma WrapRule(w: FlutterWidget, screenWidth: real, screenHeight: real)
    ensures var layout := ConvertPosition(w.position, w.size, screenWidth, screenHeight);
      var content := Content(w, layout, screenWidth, screenHeight);
      && (WidgetCode(w, screenWidth, screenHeight).Err? <==> content.Err?)
      && (content.Ok? && Unwrapped(w.kind) ==> WidgetCode(w, screenWidth, screenHeight) == content)
      && (content.Ok? && !Unwrapped(w.kind) ==>
            var code := WidgetCode(w, screenWidth, screenHeight).value;
            code.Template? && code.name == "widget_wrapper.dart.j2"
            && code.args["left"] == Place(layout.left) && code.args["top"] == Place(layout.top)
            && code.args["widget_content"] == Nested(content.value))
  {
  }

  /** Any type outside the 18 handled names renders the grey placeholder
      labelled with the type, sized by the generic conversion; a handled
      name never does. */
  lemma DispatchIsTotal(w: FlutterWidget, layout: Layout, screenWidth: real, screenHeight: real)
    ensures w.kind !in HandledTypes ==> Content(w, layout, screenWidth, screenHeight) == Ok(GreyBox(layout.width, layout.height, w.kind))
    ensures w.kind in HandledTypes && Content(w, layout, screenWidth, screenHeight).Ok? ==>
      Content(w, layout, screenWidth, screenHeight).value.Template?
  {
  }

  /** A table's content is sized by the table conversion: full width
      whatever the widget's x and width. */
  lemma TableIsFullWidth(w: FlutterWidget, layout: Layout, screenWidth: real, screenHeight: real)
    requires w.kind == "table" && Content(w, layout, screenWidth, screenHeight).Ok?
    ensures var code := Content(w, layout, screenWidth, screenHeight).value;
      && code.Template?
      && code.args["width"] == Place(Full(Width))
      && code.args["height"] == Place(ConvertTablePosition(w.position, w.size, screenWidth, screenHeight).height)
  {
  }

  /** Every other sized widget takes its width and height from the generic
      conversion. */
  lemma OtherWidgetsUseLayout(w: FlutterWidget, layout: Layout, screenWidth: real, screenHeight: real)
    requires w.kind in {"button", "textfield", "image", "container", "checkbox", "switch", "slider",
                        "dropdown", "divider", "progress", "radio", "checklist"}
    requires Content(w, layout, screenWidth, screenHeight).Ok?
    ensures var code := Content(w, layout, screenWidth, screenHeight).value;
      code.Template? && code.args["width"] == Place(layout.width) && code.args["height"] == Place(layout.height)
  {
  }

  lemma {:induction false} ChecklistFailsWhole(items: seq<Json.Value>, checked: Json.Value)
    requires items != [] && Json.IntIn(0, checked).Err?
    ensures ChecklistEntries(items, checked) == Err(TypeError)
    decreases |items|
  {
    if |items| > 1 {
      ChecklistFailsWhole(items[..|items| - 1], checked);
    }
  }

  /** One row per item, in order; row `i` is checked exactly when `i` is
      in `checked`.  The only failure is a `checked` that cannot answer
      `in`, and only when there is at least one item. */
  lemma {:induction false} ChecklistRows(items: seq<Json.Value>, checked: Json.Value)
    ensures ChecklistEntries(items, checked).Err? <==> items != [] && !checked.Arr? && !checked.Obj?
    ensures ChecklistEntries(items, checked).Ok? ==>
      var rows := ChecklistEntries(items, checked).value;
      && |rows| == |items|
      && forall i :: 0 <= i < |items| ==>
           rows[i] == ChecklistEntry(items[i], Json.IntIn(i, checked) == Ok(true))
  {
    if items != [] {
      ChecklistRows(items[..|items| - 1], checked);
      if !checked.Arr? && !checked.Obj? {
        ChecklistFailsWhole(items, checked);
      } else {
        var rows := ChecklistEntries(items, checked).value;
        var init := ChecklistEntries(items[..|items| - 1], checked).value;
        assert rows == init + [ChecklistEntry(items[|items| - 1], Json.IntIn(|items| - 1, checked).value)];
        forall i | 0 <= i < |items|
          ensures rows[i] == ChecklistEntry(items[i], Json.IntIn(i, checked) == Ok(true))
        {
          if i < |items| - 1 {
            assert rows[i] == init[i];
            assert items[..|items| - 1][i] == items[i];
          }
        }
      }
    }
  }

  /** Indices outside the item range never change the rows. */
  lemma {:induction false} ChecklistIgnoresOutOfRange(items: seq<Json.Value>, checked: seq<Json.Value>,
                                                          k: int, text: string)
    requires k < 0 || k >= |items|
    ensures ChecklistEntries(items, Json.Arr(checked + [Json.Num(k as real, text)]))
         == ChecklistEntries(items, Json.Arr(checked))
  {
    if items != [] {
      ChecklistIgnoresOutOfRange(items[..|items| - 1], checked, k, text);
      var n := |items| - 1;
      var extended := checked + [Json.Num(k as real, text)];
      assert Json.IntIn(n, Json.Arr(extended)) == Json.IntIn(n, Json.Arr(checked)) by {
        assert forall j :: 0 <= j < |checked| ==> extended[j] == checked[j];
        assert !Json.EqualsInt(extended[|checked|], n);
      }
    }
  }

  /** With no properties a checklist shows three tasks with only the first
      checked. */
  lemma ChecklistDefaults()
    ensures ChecklistEntries([Json.Str("Task 1"), Json.Str("Task 2"), Json.Str("Task 3")], Json.Arr([Int(0)]))
      == Ok([ChecklistEntry(Json.Str("Task 1"), true),
             ChecklistEntry(Json.Str("Task 2"), false),
             ChecklistEntry(Json.Str("Task 3"), false)])
  {
    var items := [Json.Str("Task 1"), Json.Str("Task 2"), Json.Str("Task 3")];
    var checked := Json.Arr([Int(0)]);
    ChecklistRows(items, checked);
    assert Json.EqualsInt(checked.items[0], 0);
    assert Json.IntIn(0, checked) == Ok(true);
    assert Json.IntIn(1, checked) == Ok(false);
    assert Json.IntIn(2, checked) == Ok(false);
    var rows := ChecklistEntries(items, checked).value;
    assert rows == [rows[0], rows[1], rows[2]];
  }

  lemma {:induction false} NavFailsWhole(table: map<string, string>, items: seq<Json.Value>, icons: seq<Json.Value>,
                                         k: nat, n: nat)
    requires 0 < k <= n <= |items| && n <= |icons|
    requires NavEntries(table, items, icons, k).Err?
    ensures NavEntries(table, items, icons, n) == NavEntries(table, items, icons, k)
    decreases n
  {
    if n > k {
      NavFailsWhole(table, items, icons, k, n - 1);
    }
  }

  /** The icon shown for a name: looked up lower-cased, `Icons.home` when
      unknown. */
  function NavIcon(table: map<string, string>, name: string): string {
    if Lower(name) in table then table[Lower(name)] else "Icons.home"
  }

  /** As many items as the shorter list, paired in order, each with the
      icon its name maps to.  The only failure is an icon that is not a
      string. */
  lemma {:induction false} NavPairs(table: map<string, string>, items: seq<Json.Value>, icons: seq<Json.Value>, n: nat)
    requires n <= |items| && n <= |icons|
    ensures NavEntries(table, items, icons, n).Ok? <==> forall j :: 0 <= j < n ==> icons[j].Str?
    ensures NavEntries(table, items, icons, n).Ok? ==>
      var rows := NavEntries(table, items, icons, n).value;
      && |rows| == n
      && forall j :: 0 <= j < n ==> rows[j] == NavEntry(items[j], NavIcon(table, icons[j].s))
  {
    if n > 0 {
      NavPairs(table, items, icons, n - 1);
      if NavEntries(table, items, icons, n - 1).Ok? && icons[n - 1].Str? {
        var rows := NavEntries(table, items, icons, n).value;
        var init := NavEntries(table, items, icons, n - 1).value;
        assert forall j :: 0 <= j < n - 1 ==> rows[j] == init[j];
      }
    }
  }

  /** The bottom navigation shows exactly `min(len(items), len(icons))`
      items; the default lists give one Home item with the home icon. */
  lemma BottomNavDefaults()
    ensures NavEntries(IconMapping(), [Json.Str("Home")], [Json.Str("home")], 1)
         == Ok([NavEntry(Json.Str("Home"), "Icons.home")])
  {
    NavPairs(IconMapping(), [Json.Str("Home")], [Json.Str("home")], 1);
    assert Lower("home") == "home";
    assert NavIcon(IconMapping(), "home") == "Icons.home";
    var rows := NavEntries(IconMapping(), [Json.Str("Home")], [Json.Str("home")], 1).value;
    assert rows == [rows[0]];
  }

  /** The missing-key defaults of the lookups: unknown icon names show a
      star, unknown weights are normal, unknown alignments left, unknown
      fits cover. */
  lemma LookupDefaults(s: string)
    ensures Lower(s) !in IconMapping() ==> LookupLowerOr(IconMapping(), Json.Str(s), "Icons.star") == Ok("Icons.star")
    ensures s !in FontWeightMapping() ==> LookupOr(FontWeightMapping(), Json.Str(s), "FontWeight.normal") == Ok("FontWeight.normal")
    ensures s !in TextAlignMapping() ==> LookupOr(TextAlignMapping(), Json.Str(s), "TextAlign.left") == Ok("TextAlign.left")
    ensures s !in BoxFitMapping() ==> LookupOr(BoxFitMapping(), Json.Str(s), "BoxFit.cover") == Ok("BoxFit.cover")
  {
  }

  /** A numeric weight such as 700 is not the key `"700"`: it falls back. */
  lemma NumericWeightFallsBack(n: real, text: string)
    ensures LookupOr(FontWeightMapping(), Json.Num(n, text), "FontWeight.normal") == Ok("FontWeight.normal")
  {
  }

  /** Booleans print as Dart literals. */
  lemma BooleansPrintLowerCase()
    ensures BoolText(Json.Bool(true)) == "true" && BoolText(Json.Bool(false)) == "false"
  {
    assert Json.PyStr(Json.Bool(true)) == "True";
    assert Json.PyStr(Json.Bool(false)) == "False";
  }

  /** The checklist converts both colours before it iterates its items: a
      colour that is not a string fails it with `AttributeError` whatever
      `items` holds. */
  lemma ChecklistColorsFirst(props: Json.Fields, layout: Layout, id: string)
    requires ColorOr(props, "itemColor", "#000000").Err? || ColorOr(props, "checkedColor", "#2196F3").Err?
    ensures ChecklistWidget(props, layout, id) == Err(AttributeError)
  {
  }

  /** A colour property that is not a string fails the widget it belongs to. */
  lemma NonStringColorFails(props: Json.Fields, key: string, default: string)
    requires Json.HasKey(props, key) && !Json.Get(props, key, Json.Null).Str?
    ensures ColorOr(props, key, default) == Err(AttributeError)
  {
  }
}
