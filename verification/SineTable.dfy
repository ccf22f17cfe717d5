/** The additive constants of MD5 are what section 3.4 of RFC 1321 says they are: the integer part
    of 2^32 times |sin(i)|, for i from 1 to 64 in radians. The sine and cosine of one are the
    limits of their power series (UnitAngle); those of the other numbers follow by the addition
    theorems, with decimal approximations and a bound on their error. */
module SineTable {
  import Rfc1321
  import opened UnitAngle

  /** The sine and cosine of one, to 36 decimals. */
  ghost predicate SineAndCosineOfOne(s: real, c: real) {
    && Near(s, 0.841470984807896506652502321630299000, 0.000000000000000000000000000000000001)
    && Near(c, 0.540302305868139717400936607442976604, 0.000000000000000000000000000000000001)
  }

  /** The sine and cosine of `n`, by the addition theorems from those of one. */
  function Angle(n: nat, s: real, c: real): (real, real) {
    if n == 0 then (0.0, 1.0)
    else Next(Angle(n - 1, s, c), s, c)
  }

  function Next(p: (real, real), s: real, c: real): (real, real) {
    (p.0 * c + p.1 * s, p.1 * c - p.0 * s)
  }

  // Decimal approximations of the sines and cosines of the natural numbers.

  function Sine(n: nat): real
    requires n <= 64
  {
    if n < 8 then
      [
        0.000000000000000000000000000000000000, 0.841470984807896506652502321630299000,
        0.909297426825681695396019865911744843, 0.141120008059867222100744802808110280,
        -0.756802495307928251372639094511829094, -0.958924274663138468893154406155993973,
        -0.279415498198925872811555446611894760, 0.656986598718789090396999091593635178
      ][n - 0]
    else if n < 16 then
      [
        0.989358246623381777808123598245288672, 0.412118485241756569756272566352435179,
        -0.544021110889369813404747661851377282, -0.999990206550703457051564899025522107,
        -0.536572918000434971665374228242401792, 0.420167036826640921868955035476882788,
        0.990607355694870307875354804014585604, 0.650287840157116865829740270988870325
      ][n - 8]
    else if n < 24 then
      [
        -0.287903316665065294784456248218617530, -0.961397491879556857261636944869156098,
        -0.750987246771676103750156084447114531, 0.149877209662952329754239321238253949,
        0.912945250727627654376099983845682301, 0.836655638536056031866480770245023776,
        -0.008851309290403875921690256815772332, -0.846220404175170635241326271905595928
      ][n - 16]
    else if n < 32 then
      [
        -0.905578362006623845135793358527793322, -0.132351750097773028902005093883606301,
        0.762558450479602737515823293204562973, 0.956375928404503013432340558329192950,
        0.270905788307869019986343092778792533, -0.663633884212967502151173340061105151,
        -0.988031624092861789987748907294458150, -0.404037645323065006048770899664237198
      ][n - 24]
    else if n < 40 then
      [
        0.551426681241690550661558166845712816, 0.999911860107267145728084376707828314,
        0.529082686120023820832487134032104754, -0.428182669496151004406752891745940666,
        -0.991778853443115736835288968840815779, -0.643538133356999460685670019080795541,
        0.296368578709385317392296649849017321, 0.963795386284087753260664971765882115
      ][n - 32]
    else if n < 48 then
      [
        0.745113160479348786987709402636344342, -0.158622668804708987103317011929687032,
        -0.916521547915633785898989158069671502, -0.831774742628598288209578256291752240,
        0.017701925105413577807954053166616699, 0.850903524534118424862379677618041119,
        0.901788347648809185033293039222738569, 0.123573122745224004061529348086410548
      ][n - 40]
    else if n < 56 then
      [
        -0.768254661323666799044965664845893495, -0.953752652759471818360423558587710595,
        -0.262374853703928785914393646912622546, 0.670229175843374734494345074950666808,
        0.986627592040485296587568934436740111, 0.395925150181834181503386139263539273,
        -0.558789048851616245817871318965393797, -0.999755173358619836598631683243892199
      ][n - 48]
    else if n < 64 then
      [
        -0.521551002086911880187410021510600538, 0.436164755247824959080534793129243488,
        0.992872648084537118165088164425399818, 0.636738007139137880771233492376829383,
        -0.304810621102216705625649465478425841, -0.966117770008392947018287989480518152,
        -0.739180696649222867276016933755436634, 0.167355700302806921527838370288718029
      ][n - 56]
    else 0.920026038196790683351536603777251867
  }

  function Cosine(n: nat): real
    requires n <= 64
  {
    if n < 8 then
      [
        1.000000000000000000000000000000000000, 0.540302305868139717400936607442976604,
        -0.416146836547142386997568229500762190, -0.989992496600445457271572794731261302,
        -0.653643620863611914639168183097750381, 0.283662185463226264466639171513557308,
        0.960170286650366020545652297922924405, 0.753902254343304638141197521719182012
      ][n - 0]
    else if n < 16 then
      [
        -0.145500033808613525868841381831194683, -0.911130261884676988368294711181165311,
        -0.839071529076452452258863947824064835, 0.004425697988050785748355024723941573,
        0.843853958732492104653955293173621783, 0.907446781450196213852686155474475850,
        0.136737218207833594248928876671738241, -0.759687912858821273848146403633280544
      ][n - 8]
    else if n < 24 then
      [
        -0.957659480323384641899637232651103472, -0.275163338051596922220342656551862899,
        0.660316708244080144816100044790450785, 0.988704618186669252898352856548157268,
        0.408082061813391986062267860927644957, -0.547729260224268421384271132950982009,
        -0.999960826394637126454174739212693774, -0.532833020333397555215757657164125803
      ][n - 16]
    else if n < 32 then
      [
        0.424179007336996975937050944759206479, 0.991202811863473598083294718815924197,
        0.646919322328640342721383901888901602, -0.292138808733836193371404835837629912,
        -0.962605866313566601975453057899308851, -0.748057529689000351765191792255140803,
        0.154251449887584050718662146614210197, 0.914742357804531278962435826150354766
      ][n - 24]
    else if n < 40 then
      [
        0.834223360506510272215526470870292307, -0.013276747223059478915220031371007039,
        -0.848570274784605186599972087712383159, -0.903692205091506759847304572083770553,
        -0.127963689627404681028327977914371213, 0.765414051945343356491081292902511701,
        0.955073644047294857586536235405876954, 0.266642932359937251526825794975632752
      ][n - 32]
    else if n < 48 then
      [
        -0.666938061652261844384092781933699988, -0.987339277523826458228825133414827638,
        -0.399985314988351293954707337177202028, 0.555113301520625677044879441962591965,
        0.999843308647691220069009016637856032, 0.525321988817729696047464404823562919,
        -0.432177944884778294952776524132768499, -0.992335469150928718279752420344862158
      ][n - 40]
    else if n < 56 then
      [
        -0.640144339469199731312941419393077180, 0.300592543743637083687026000490561378,
        0.964966028492113274068957058901016992, 0.742154196813782539467377175736955949,
        -0.162990780795705481003329815425211686, -0.918282786212118891199726323216472088,
        -0.829309832863150147727850042488168722, 0.022126756261955734563564262146626501
      ][n - 48]
    else if n < 64 then
      [
        0.853220107722584113969681233914913751, 0.899866826969193786503000404657835107,
        0.119180135448819285435843610766963922, -0.771080222975845229387435296376289193,
        -0.952412980415156292693816595992933297, -0.258101635938267445701207347152754036,
        0.673507162323586252887833405953936491, 0.985896581582549697438635756053977155
      ][n - 56]
    else 0.391857230429550005161709858513122942
  }

  /** One row leads to the next by the addition theorems, but for rounding. */
  predicate Turned(a: real, b: real, a': real, b': real) {
    && -1.0 <= a <= 1.0 && -1.0 <= b <= 1.0
    && Near(a', a * 0.540302305868139717400936607442976604 + b * 0.841470984807896506652502321630299000,
            0.00000000000000000000000000000000001)
    && Near(b', b * 0.540302305868139717400936607442976604 - a * 0.841470984807896506652502321630299000,
            0.00000000000000000000000000000000001)
  }

  predicate RowOk(n: nat)
    requires n < 64
  {
    Turned(Sine(n), Cosine(n), Sine(n + 1), Cosine(n + 1))
  }

  lemma Row(n: nat, a: real, b: real, a': real, b': real)
    requires n < 64 && Sine(n) == a && Cosine(n) == b && Sine(n + 1) == a' && Cosine(n + 1) == b'
    requires Turned(a, b, a', b')
    ensures RowOk(n)
  {
  }

  lemma RowsFrom0(n: nat)
    requires 0 <= n < 8
    ensures RowOk(n)
  {
    Row(0, 0.000000000000000000000000000000000000, 1.000000000000000000000000000000000000,
        0.841470984807896506652502321630299000, 0.540302305868139717400936607442976604);
    Row(1, 0.841470984807896506652502321630299000, 0.540302305868139717400936607442976604,
        0.909297426825681695396019865911744843, -0.416146836547142386997568229500762190);
    Row(2, 0.909297426825681695396019865911744843, -0.416146836547142386997568229500762190,
        0.141120008059867222100744802808110280, -0.989992496600445457271572794731261302);
    Row(3, 0.141120008059867222100744802808110280, -0.989992496600445457271572794731261302,
        -0.756802495307928251372639094511829094, -0.653643620863611914639168183097750381);
    Row(4, -0.756802495307928251372639094511829094, -0.653643620863611914639168183097750381,
        -0.958924274663138468893154406155993973, 0.283662185463226264466639171513557308);
    Row(5, -0.958924274663138468893154406155993973, 0.283662185463226264466639171513557308,
        -0.279415498198925872811555446611894760, 0.960170286650366020545652297922924405);
    Row(6, -0.279415498198925872811555446611894760, 0.960170286650366020545652297922924405,
        0.656986598718789090396999091593635178, 0.753902254343304638141197521719182012);
    Row(7, 0.656986598718789090396999091593635178, 0.753902254343304638141197521719182012,
        0.989358246623381777808123598245288672, -0.145500033808613525868841381831194683);
  }

  lemma RowsFrom8(n: nat)
    requires 8 <= n < 16
    ensures RowOk(n)
  {
    Row(8, 0.989358246623381777808123598245288672, -0.145500033808613525868841381831194683,
        0.412118485241756569756272566352435179, -0.911130261884676988368294711181165311);
    Row(9, 0.412118485241756569756272566352435179, -0.911130261884676988368294711181165311,
        -0.544021110889369813404747661851377282, -0.839071529076452452258863947824064835);
    Row(10, -0.544021110889369813404747661851377282, -0.839071529076452452258863947824064835,
        -0.999990206550703457051564899025522107, 0.004425697988050785748355024723941573);
    Row(11, -0.999990206550703457051564899025522107, 0.004425697988050785748355024723941573,
        -0.536572918000434971665374228242401792, 0.843853958732492104653955293173621783);
    Row(12, -0.536572918000434971665374228242401792, 0.843853958732492104653955293173621783,
        0.420167036826640921868955035476882788, 0.907446781450196213852686155474475850);
    Row(13, 0.420167036826640921868955035476882788, 0.907446781450196213852686155474475850,
        0.990607355694870307875354804014585604, 0.136737218207833594248928876671738241);
    Row(14, 0.990607355694870307875354804014585604, 0.136737218207833594248928876671738241,
        0.650287840157116865829740270988870325, -0.759687912858821273848146403633280544);
    Row(15, 0.650287840157116865829740270988870325, -0.759687912858821273848146403633280544,
        -0.287903316665065294784456248218617530, -0.957659480323384641899637232651103472);
  }

  lemma RowsFrom16(n: nat)
    requires 16 <= n < 24
    ensures RowOk(n)
  {
    Row(16, -0.287903316665065294784456248218617530, -0.957659480323384641899637232651103472,
        -0.961397491879556857261636944869156098, -0.275163338051596922220342656551862899);
    Row(17, -0.961397491879556857261636944869156098, -0.275163338051596922220342656551862899,
        -0.750987246771676103750156084447114531, 0.660316708244080144816100044790450785);
    Row(18, -0.750987246771676103750156084447114531, 0.660316708244080144816100044790450785,
        0.149877209662952329754239321238253949, 0.988704618186669252898352856548157268);
    Row(19, 0.149877209662952329754239321238253949, 0.988704618186669252898352856548157268,
        0.912945250727627654376099983845682301, 0.408082061813391986062267860927644957);
    Row(20, 0.912945250727627654376099983845682301, 0.408082061813391986062267860927644957,
        0.836655638536056031866480770245023776, -0.547729260224268421384271132950982009);
    Row(21, 0.836655638536056031866480770245023776, -0.547729260224268421384271132950982009,
        -0.008851309290403875921690256815772332, -0.999960826394637126454174739212693774);
    Row(22, -0.008851309290403875921690256815772332, -0.999960826394637126454174739212693774,
        -0.846220404175170635241326271905595928, -0.532833020333397555215757657164125803);
    Row(23, -0.846220404175170635241326271905595928, -0.532833020333397555215757657164125803,
        -0.905578362006623845135793358527793322, 0.424179007336996975937050944759206479);
  }

  lemma RowsFrom24(n: nat)
    requires 24 <= n < 32
    ensures RowOk(n)
  {
    Row(24, -0.905578362006623845135793358527793322, 0.424179007336996975937050944759206479,
        -0.132351750097773028902005093883606301, 0.991202811863473598083294718815924197);
    Row(25, -0.132351750097773028902005093883606301, 0.991202811863473598083294718815924197,
        0.762558450479602737515823293204562973, 0.646919322328640342721383901888901602);
    Row(26, 0.762558450479602737515823293204562973, 0.646919322328640342721383901888901602,
        0.956375928404503013432340558329192950, -0.292138808733836193371404835837629912);
    Row(27, 0.956375928404503013432340558329192950, -0.292138808733836193371404835837629912,
        0.270905788307869019986343092778792533, -0.962605866313566601975453057899308851);
    Row(28, 0.270905788307869019986343092778792533, -0.962605866313566601975453057899308851,
        -0.663633884212967502151173340061105151, -0.748057529689000351765191792255140803);
    Row(29, -0.663633884212967502151173340061105151, -0.748057529689000351765191792255140803,
        -0.988031624092861789987748907294458150, 0.154251449887584050718662146614210197);
    Row(30, -0.988031624092861789987748907294458150, 0.154251449887584050718662146614210197,
        -0.404037645323065006048770899664237198, 0.914742357804531278962435826150354766);
    Row(31, -0.404037645323065006048770899664237198, 0.914742357804531278962435826150354766,
        0.551426681241690550661558166845712816, 0.834223360506510272215526470870292307);
  }

  lemma RowsFrom32(n: nat)
    requires 32 <= n < 40
    ensures RowOk(n)
  {
    Row(32, 0.551426681241690550661558166845712816, 0.834223360506510272215526470870292307,
        0.999911860107267145728084376707828314, -0.013276747223059478915220031371007039);
    Row(33, 0.999911860107267145728084376707828314, -0.013276747223059478915220031371007039,
        0.529082686120023820832487134032104754, -0.848570274784605186599972087712383159);
    Row(34, 0.529082686120023820832487134032104754, -0.848570274784605186599972087712383159,
        -0.428182669496151004406752891745940666, -0.903692205091506759847304572083770553);
    Row(35, -0.428182669496151004406752891745940666, -0.903692205091506759847304572083770553,
        -0.991778853443115736835288968840815779, -0.127963689627404681028327977914371213);
    Row(36, -0.991778853443115736835288968840815779, -0.127963689627404681028327977914371213,
        -0.643538133356999460685670019080795541, 0.765414051945343356491081292902511701);
    Row(37, -0.643538133356999460685670019080795541, 0.765414051945343356491081292902511701,
        0.296368578709385317392296649849017321, 0.955073644047294857586536235405876954);
    Row(38, 0.296368578709385317392296649849017321, 0.955073644047294857586536235405876954,
        0.963795386284087753260664971765882115, 0.266642932359937251526825794975632752);
    Row(39, 0.963795386284087753260664971765882115, 0.266642932359937251526825794975632752,
        0.745113160479348786987709402636344342, -0.666938061652261844384092781933699988);
  }

  lemma RowsFrom40(n: nat)
    requires 40 <= n < 48
    ensures RowOk(n)
  {
    Row(40, 0.745113160479348786987709402636344342, -0.666938061652261844384092781933699988,
        -0.158622668804708987103317011929687032, -0.987339277523826458228825133414827638);
    Row(41, -0.158622668804708987103317011929687032, -0.987339277523826458228825133414827638,
        -0.916521547915633785898989158069671502, -0.399985314988351293954707337177202028);
    Row(42, -0.916521547915633785898989158069671502, -0.399985314988351293954707337177202028,
        -0.831774742628598288209578256291752240, 0.555113301520625677044879441962591965);
    Row(43, -0.831774742628598288209578256291752240, 0.555113301520625677044879441962591965,
        0.017701925105413577807954053166616699, 0.999843308647691220069009016637856032);
    Row(44, 0.017701925105413577807954053166616699, 0.999843308647691220069009016637856032,
        0.850903524534118424862379677618041119, 0.525321988817729696047464404823562919);
    Row(45, 0.850903524534118424862379677618041119, 0.525321988817729696047464404823562919,
        0.901788347648809185033293039222738569, -0.432177944884778294952776524132768499);
    Row(46, 0.901788347648809185033293039222738569, -0.432177944884778294952776524132768499,
        0.123573122745224004061529348086410548, -0.992335469150928718279752420344862158);
    Row(47, 0.123573122745224004061529348086410548, -0.992335469150928718279752420344862158,
        -0.768254661323666799044965664845893495, -0.640144339469199731312941419393077180);
  }

  lemma RowsFrom48(n: nat)
    requires 48 <= n < 56
    ensures RowOk(n)
  {
    Row(48, -0.768254661323666799044965664845893495, -0.640144339469199731312941419393077180,
        -0.953752652759471818360423558587710595, 0.300592543743637083687026000490561378);
    Row(49, -0.953752652759471818360423558587710595, 0.300592543743637083687026000490561378,
        -0.262374853703928785914393646912622546, 0.964966028492113274068957058901016992);
    Row(50, -0.262374853703928785914393646912622546, 0.964966028492113274068957058901016992,
        0.670229175843374734494345074950666808, 0.742154196813782539467377175736955949);
    Row(51, 0.670229175843374734494345074950666808, 0.742154196813782539467377175736955949,
        0.986627592040485296587568934436740111, -0.162990780795705481003329815425211686);
    Row(52, 0.986627592040485296587568934436740111, -0.162990780795705481003329815425211686,
        0.395925150181834181503386139263539273, -0.918282786212118891199726323216472088);
    Row(53, 0.395925150181834181503386139263539273, -0.918282786212118891199726323216472088,
        -0.558789048851616245817871318965393797, -0.829309832863150147727850042488168722);
    Row(54, -0.558789048851616245817871318965393797, -0.829309832863150147727850042488168722,
        -0.999755173358619836598631683243892199, 0.022126756261955734563564262146626501);
    Row(55, -0.999755173358619836598631683243892199, 0.022126756261955734563564262146626501,
        -0.521551002086911880187410021510600538, 0.853220107722584113969681233914913751);
  }

  lemma RowsFrom56(n: nat)
    requires 56 <= n < 64
    ensures RowOk(n)
  {
    Row(56, -0.521551002086911880187410021510600538, 0.853220107722584113969681233914913751,
        0.436164755247824959080534793129243488, 0.899866826969193786503000404657835107);
    Row(57, 0.436164755247824959080534793129243488, 0.899866826969193786503000404657835107,
        0.992872648084537118165088164425399818, 0.119180135448819285435843610766963922);
    Row(58, 0.992872648084537118165088164425399818, 0.119180135448819285435843610766963922,
        0.636738007139137880771233492376829383, -0.771080222975845229387435296376289193);
    Row(59, 0.636738007139137880771233492376829383, -0.771080222975845229387435296376289193,
        -0.304810621102216705625649465478425841, -0.952412980415156292693816595992933297);
    Row(60, -0.304810621102216705625649465478425841, -0.952412980415156292693816595992933297,
        -0.966117770008392947018287989480518152, -0.258101635938267445701207347152754036);
    Row(61, -0.966117770008392947018287989480518152, -0.258101635938267445701207347152754036,
        -0.739180696649222867276016933755436634, 0.673507162323586252887833405953936491);
    Row(62, -0.739180696649222867276016933755436634, 0.673507162323586252887833405953936491,
        0.167355700302806921527838370288718029, 0.985896581582549697438635756053977155);
    Row(63, 0.167355700302806921527838370288718029, 0.985896581582549697438635756053977155,
        0.920026038196790683351536603777251867, 0.391857230429550005161709858513122942);
  }

  lemma Rows(n: nat)
    requires n < 64
    ensures RowOk(n)
  {
    if n < 8 {
      RowsFrom0(n);
    } else if n < 16 {
      RowsFrom8(n);
    } else if n < 24 {
      RowsFrom16(n);
    } else if n < 32 {
      RowsFrom24(n);
    } else if n < 40 {
      RowsFrom32(n);
    } else if n < 48 {
      RowsFrom40(n);
    } else if n < 56 {
      RowsFrom48(n);
    } else {
      RowsFrom56(n);
    }
  }

  // Errors.

  lemma UnitProduct(u: real, v: real)
    requires u >= 0.0 && v >= 0.0
    ensures u * v >= 0.0
  {
  }

  lemma SmallProduct(u: real, v: real, e: real)
    requires -e <= u <= e && -1.0 <= v <= 1.0
    ensures -e <= u * v <= e
  {
    var w := if v >= 0.0 then v else -v;
    UnitProduct(e - u, w);
    UnitProduct(e + u, w);
    UnitProduct(e, 1.0 - w);
  }

  lemma ProductClose(x: real, c: real, a: real, b: real, e: real, d: real)
    requires 0.0 <= e <= 1.0 && Near(x, a, e) && Near(c, b, d)
    requires -1.0 <= a <= 1.0 && -1.0 <= b <= 1.0
    ensures Near(x * c, a * b, e + 2.0 * d)
  {
    var h := x / 2.0;
    SmallProduct(x - a, b, e);
    SmallProduct(c - b, h, d);
    assert x * c - a * b == (x - a) * b + 2.0 * ((c - b) * h);
  }

  lemma SumClose(p: real, q: real, p': real, q': real, sum: real, d: real, r: real, next: real)
    requires Near(p, p', d) && Near(q, q', d) && next == 2.0 * d + r
    ensures Near(sum, p' + q', r) ==> Near(p + q, sum, next)
    ensures Near(sum, p' - q', r) ==> Near(p - q, sum, next)
  {
  }

  ghost predicate Close(p: (real, real), a: real, b: real, e: real) {
    Near(p.0, a, e) && Near(p.1, b, e)
  }

  lemma RowClose(x: real, y: real, s: real, c: real, a: real, b: real, s': real, c': real, a': real, b': real,
                 e: real, d: real, r: real, next: real)
    requires 0.0 <= e <= 1.0 && Near(x, a, e) && Near(y, b, e) && Near(s, s', d) && Near(c, c', d)
    requires -1.0 <= a <= 1.0 && -1.0 <= b <= 1.0 && -1.0 <= s' <= 1.0 && -1.0 <= c' <= 1.0
    requires Near(a', a * c' + b * s', r) && Near(b', b * c' - a * s', r) && next == 2.0 * (e + 2.0 * d) + r
    ensures Near(x * c + y * s, a', next) && Near(y * c - x * s, b', next)
  {
    ProductClose(x, c, a, c', e, d);
    ProductClose(y, s, b, s', e, d);
    SumClose(x * c, y * s, a * c', b * s', a', e + 2.0 * d, r, next);
    ProductClose(y, c, b, c', e, d);
    ProductClose(x, s, a, s', e, d);
    SumClose(y * c, x * s, b * c', a * s', b', e + 2.0 * d, r, next);
  }


  /** What one row adds to the error: four times the error of the angle of one, and rounding. */
  const ROW_ERROR := 0.000000000000000000000000000000000014

  function Error(n: nat): (e: real)
    ensures e >= 0.0
  {
    if n == 0 then 0.0 else 2.0 * Error(n - 1) + ROW_ERROR
  }

  lemma EightRows(n: nat)
    ensures Error(n + 8) == 256.0 * Error(n) + 255.0 * ROW_ERROR
  {
    assert Error(n + 2) == 4.0 * Error(n) + 3.0 * ROW_ERROR;
    assert Error(n + 4) == 16.0 * Error(n) + 15.0 * ROW_ERROR;
    assert Error(n + 6) == 64.0 * Error(n) + 63.0 * ROW_ERROR;
  }

  lemma {:induction false} ErrorGrows(n: nat, m: nat)
    requires n <= m
    ensures Error(n) <= Error(m)
  {
    if n < m {
      ErrorGrows(n, m - 1);
    }
  }

  lemma ErrorIsSmall(n: nat)
    requires n <= 64
    ensures Error(n) <= 0.000000000000001
  {
    var k: nat := n - n;
    EightRows(k);
    EightRows(k + 8);
    EightRows(k + 16);
    EightRows(k + 24);
    EightRows(k + 32);
    EightRows(k + 40);
    EightRows(k + 48);
    EightRows(k + 56);
    ErrorGrows(n, 64);
  }

  ghost predicate Follows(n: nat, s: real, c: real, a: real, b: real) {
    Close(Angle(n, s, c), a, b, Error(n))
  }

  /** The row lemma with the numbers of the table filled in. */
  lemma NextNumbers(x: real, y: real, s: real, c: real, a: real, b: real, a': real, b': real, e: real, next: real)
    requires 0.0 <= e <= 1.0 && Near(x, a, e) && Near(y, b, e) && SineAndCosineOfOne(s, c) && Turned(a, b, a', b')
    requires next == 2.0 * e + ROW_ERROR
    ensures Near(x * c + y * s, a', next) && Near(y * c - x * s, b', next)
  {
    RowClose(x, y, s, c, a, b, 0.841470984807896506652502321630299000, 0.540302305868139717400936607442976604,
             a', b', e, 0.000000000000000000000000000000000001, 0.00000000000000000000000000000000001, next);
  }

  lemma NextRow(p: (real, real), s: real, c: real, a: real, b: real, a': real, b': real, e: real, next: real)
    requires 0.0 <= e <= 1.0 && Close(p, a, b, e) && SineAndCosineOfOne(s, c) && Turned(a, b, a', b')
    requires next == 2.0 * e + ROW_ERROR
    ensures Close(Next(p, s, c), a', b', next)
  {
    NextNumbers(p.0, p.1, s, c, a, b, a', b', e, next);
  }

  /** The approximations follow the angle. */
  lemma {:induction false} AngleClose(n: nat, s: real, c: real)
    requires n <= 64 && SineAndCosineOfOne(s, c)
    ensures Follows(n, s, c, Sine(n), Cosine(n))
  {
    if n > 0 {
      var m: nat := n - 1;
      AngleClose(m, s, c);
      Rows(m);
      ErrorIsSmall(m);
      NextRow(Angle(m, s, c), s, c, Sine(m), Cosine(m), Sine(n), Cosine(n), Error(m), Error(n));
    } else {
      assert Sine(0) == 0.0 && Cosine(0) == 1.0;
    }
  }

  // The table.

  function Abs(x: real): real {
    if x < 0.0 then -x else x
  }

  /** The constant is safely the integer part of the approximation's multiple. */
  predicate SafePart(t: nat, x: real) {
    t as real + 0.01 <= 4294967296.0 * Abs(x) <= t as real + 0.99
  }

  predicate ConstantOk(i: nat)
    requires 1 <= i <= 64
  {
    SafePart(Rfc1321.T(i) as int, Sine(i))
  }

  lemma Constant(i: nat, t: nat, x: real)
    requires 1 <= i <= 64 && Rfc1321.T(i) as int == t && Sine(i) == x && SafePart(t, x)
    ensures ConstantOk(i)
  {
  }

  lemma ConstantsFrom1(i: nat)
    requires 1 <= i < 9
    ensures ConstantOk(i)
  {
    Constant(1, 0xd76aa478, 0.841470984807896506652502321630299000);
    Constant(2, 0xe8c7b756, 0.909297426825681695396019865911744843);
    Constant(3, 0x242070db, 0.141120008059867222100744802808110280);
    Constant(4, 0xc1bdceee, -0.756802495307928251372639094511829094);
    Constant(5, 0xf57c0faf, -0.958924274663138468893154406155993973);
    Constant(6, 0x4787c62a, -0.279415498198925872811555446611894760);
    Constant(7, 0xa8304613, 0.656986598718789090396999091593635178);
    Constant(8, 0xfd469501, 0.989358246623381777808123598245288672);
  }

  lemma ConstantsFrom9(i: nat)
    requires 9 <= i < 17
    ensures ConstantOk(i)
  {
    Constant(9, 0x698098d8, 0.412118485241756569756272566352435179);
    Constant(10, 0x8b44f7af, -0.544021110889369813404747661851377282);
    Constant(11, 0xffff5bb1, -0.999990206550703457051564899025522107);
    Constant(12, 0x895cd7be, -0.536572918000434971665374228242401792);
    Constant(13, 0x6b901122, 0.420167036826640921868955035476882788);
    Constant(14, 0xfd987193, 0.990607355694870307875354804014585604);
    Constant(15, 0xa679438e, 0.650287840157116865829740270988870325);
    Constant(16, 0x49b40821, -0.287903316665065294784456248218617530);
  }

  lemma ConstantsFrom17(i: nat)
    requires 17 <= i < 25
    ensures ConstantOk(i)
  {
    Constant(17, 0xf61e2562, -0.961397491879556857261636944869156098);
    Constant(18, 0xc040b340, -0.750987246771676103750156084447114531);
    Constant(19, 0x265e5a51, 0.149877209662952329754239321238253949);
    Constant(20, 0xe9b6c7aa, 0.912945250727627654376099983845682301);
    Constant(21, 0xd62f105d, 0.836655638536056031866480770245023776);
    Constant(22, 0x02441453, -0.008851309290403875921690256815772332);
    Constant(23, 0xd8a1e681, -0.846220404175170635241326271905595928);
    Constant(24, 0xe7d3fbc8, -0.905578362006623845135793358527793322);
  }

  lemma ConstantsFrom25(i: nat)
    requires 25 <= i < 33
    ensures ConstantOk(i)
  {
    Constant(25, 0x21e1cde6, -0.132351750097773028902005093883606301);
    Constant(26, 0xc33707d6, 0.762558450479602737515823293204562973);
    Constant(27, 0xf4d50d87, 0.956375928404503013432340558329192950);
    Constant(28, 0x455a14ed, 0.270905788307869019986343092778792533);
    Constant(29, 0xa9e3e905, -0.663633884212967502151173340061105151);
    Constant(30, 0xfcefa3f8, -0.988031624092861789987748907294458150);
    Constant(31, 0x676f02d9, -0.404037645323065006048770899664237198);
    Constant(32, 0x8d2a4c8a, 0.551426681241690550661558166845712816);
  }

  lemma ConstantsFrom33(i: nat)
    requires 33 <= i < 41
    ensures ConstantOk(i)
  {
    Constant(33, 0xfffa3942, 0.999911860107267145728084376707828314);
    Constant(34, 0x8771f681, 0.529082686120023820832487134032104754);
    Constant(35, 0x6d9d6122, -0.428182669496151004406752891745940666);
    Constant(36, 0xfde5380c, -0.991778853443115736835288968840815779);
    Constant(37, 0xa4beea44, -0.643538133356999460685670019080795541);
    Constant(38, 0x4bdecfa9, 0.296368578709385317392296649849017321);
    Constant(39, 0xf6bb4b60, 0.963795386284087753260664971765882115);
    Constant(40, 0xbebfbc70, 0.745113160479348786987709402636344342);
  }

  lemma ConstantsFrom41(i: nat)
    requires 41 <= i < 49
    ensures ConstantOk(i)
  {
    Constant(41, 0x289b7ec6, -0.158622668804708987103317011929687032);
    Constant(42, 0xeaa127fa, -0.916521547915633785898989158069671502);
    Constant(43, 0xd4ef3085, -0.831774742628598288209578256291752240);
    Constant(44, 0x04881d05, 0.017701925105413577807954053166616699);
    Constant(45, 0xd9d4d039, 0.850903524534118424862379677618041119);
    Constant(46, 0xe6db99e5, 0.901788347648809185033293039222738569);
    Constant(47, 0x1fa27cf8, 0.123573122745224004061529348086410548);
    Constant(48, 0xc4ac5665, -0.768254661323666799044965664845893495);
  }

  lemma ConstantsFrom49(i: nat)
    requires 49 <= i < 57
    ensures ConstantOk(i)
  {
    Constant(49, 0xf4292244, -0.953752652759471818360423558587710595);
    Constant(50, 0x432aff97, -0.262374853703928785914393646912622546);
    Constant(51, 0xab9423a7, 0.670229175843374734494345074950666808);
    Constant(52, 0xfc93a039, 0.986627592040485296587568934436740111);
    Constant(53, 0x655b59c3, 0.395925150181834181503386139263539273);
    Constant(54, 0x8f0ccc92, -0.558789048851616245817871318965393797);
    Constant(55, 0xffeff47d, -0.999755173358619836598631683243892199);
    Constant(56, 0x85845dd1, -0.521551002086911880187410021510600538);
  }

  lemma ConstantsFrom57(i: nat)
    requires 57 <= i < 65
    ensures ConstantOk(i)
  {
    Constant(57, 0x6fa87e4f, 0.436164755247824959080534793129243488);
    Constant(58, 0xfe2ce6e0, 0.992872648084537118165088164425399818);
    Constant(59, 0xa3014314, 0.636738007139137880771233492376829383);
    Constant(60, 0x4e0811a1, -0.304810621102216705625649465478425841);
    Constant(61, 0xf7537e82, -0.966117770008392947018287989480518152);
    Constant(62, 0xbd3af235, -0.739180696649222867276016933755436634);
    Constant(63, 0x2ad7d2bb, 0.167355700302806921527838370288718029);
    Constant(64, 0xeb86d391, 0.920026038196790683351536603777251867);
  }

  lemma Constants(i: nat)
    requires 1 <= i <= 64
    ensures ConstantOk(i)
  {
    if i < 9 {
      ConstantsFrom1(i);
    } else if i < 17 {
      ConstantsFrom9(i);
    } else if i < 25 {
      ConstantsFrom17(i);
    } else if i < 33 {
      ConstantsFrom25(i);
    } else if i < 41 {
      ConstantsFrom33(i);
    } else if i < 49 {
      ConstantsFrom41(i);
    } else if i < 57 {
      ConstantsFrom49(i);
    } else {
      ConstantsFrom57(i);
    }
  }

  lemma SafePartIsFloor(t: nat, x: real, y: real)
    requires SafePart(t, x) && Near(y, x, 0.000000000000001)
    ensures (4294967296.0 * Abs(y)).Floor == t
  {
    assert Near(Abs(y), Abs(x), 0.000000000000001);
    assert t as real <= 4294967296.0 * Abs(y) < t as real + 1.0;
  }

  lemma FollowedPart(i: nat, s: real, c: real, a: real, b: real, t: nat)
    requires i <= 64 && Follows(i, s, c, a, b) && SafePart(t, a)
    ensures (4294967296.0 * Abs(Angle(i, s, c).0)).Floor == t
  {
    ErrorIsSmall(i);
    SafePartIsFloor(t, a, Angle(i, s, c).0);
  }

  /** T[i] is the integer part of 4294967296 times |sin(i)|. */
  lemma ConstantsAreSines(i: nat, s: real, c: real)
    requires 1 <= i <= 64 && IsSineOfOne(s) && IsCosineOfOne(c)
    ensures Rfc1321.T(i) as int == (4294967296.0 * Abs(Angle(i, s, c).0)).Floor
  {
    SineOfOne(s);
    CosineOfOne(c);
    AngleClose(i, s, c);
    Constants(i);
    FollowedPart(i, s, c, Sine(i), Cosine(i), Rfc1321.T(i) as int);
  }
}
